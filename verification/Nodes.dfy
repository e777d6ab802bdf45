/** What a node does with its chain, as functions from the node before to the node after. */
module Nodes {
  import opened Wrappers
  import opened Core
  import opened Ledger
  import opened Genesis
  import opened Replay
  import opened Storage
  import opened Consensus

  const MAX_MEMPOOL_TRANSACTIONS := 10_000

  datatype BlockFault =
    | UnsupportedBlockVersion | WrongChain | WrongHeight | WrongParent | UnknownProposer | NotScheduled
    | BadProposerSignature | ProposerRequired | UnpairedProposer | DuplicateOperation | TransactionRootMismatch
    | StateRootMismatch | VoteHeightNotLatest | VotesForAnotherBlock

  datatype NodeError =
    | OfState(state: StateError) | OfStorage(storage: StorageError) | DuplicateTransaction | MempoolFull
    | DuplicatePending | InvalidPending | NotProposer | FaucetDisabled | InvalidBlock(fault: BlockFault)
    | NoConsensus | InvalidGenesis | CorruptChain

  /** The six pools of pending operations; `ids` belongs to the mempool. */
  datatype Pools = Pools(
    transactions: seq<Transaction>, ids: set<Hash>, assets: seq<AssetOperation>, tokens: seq<TokenOperation>,
    swaps: seq<MnaSwapOperation>, reserves: seq<MnaReserveOperation>, programs: seq<ProgramOperation>)

  const EMPTY_POOLS := Pools([], {}, [], [], [], [], [])

  datatype NodeView = NodeView(genesis: GenesisConfig, state: Snapshot, latest: Block, disk: Disk, pools: Pools)

  /* ---------- operations of the six families, in the order of a block ---------- */

  function AsTransfer(tx: Transaction): Op { Transfer(tx) }
  function AsBridge(o: AssetOperation): Op { Bridge(o) }
  function AsToken(o: TokenOperation): Op { Token(o) }
  function AsSwap(o: MnaSwapOperation): Op { Op.Swap(o) }
  function AsReserve(o: MnaReserveOperation): Op { Op.Reserve(o) }
  function AsProgram(height: nat): ProgramOperation -> Op { (o: ProgramOperation) => Program(o, height) }

  /** The identity under which an operation enters the transaction root. Credits never enter a block. */
  function OpId(env: Env, op: Op): Hash {
    match op
    case Transfer(tx) => env.txId(tx.unsigned)
    case Bridge(o) => o.operationId
    case Token(o) => env.tokenOpId(o.unsigned)
    case Swap(o) => env.swapId(o.unsigned)
    case Reserve(o) => env.reserveId(o)
    case Program(o, _) => env.programOpId(o)
    case Credit(_, _) => ZERO_HASH
  }

  function Ids<T>(env: Env, items: seq<T>, op: T -> Op): (ids: seq<Hash>)
    ensures |ids| == |items| && forall i :: 0 <= i < |items| ==> ids[i] == OpId(env, op(items[i]))
  {
    if items == [] then [] else [OpId(env, op(items[0]))] + Ids(env, items[1..], op)
  }

  function BlockIds(env: Env, b: Block): seq<Hash> {
    Ids(env, b.transactions, AsTransfer) + Ids(env, b.assetOperations, AsBridge) + Ids(env, b.tokenOperations, AsToken)
    + Ids(env, b.swapOperations, AsSwap) + Ids(env, b.reserveOperations, AsReserve)
    + Ids(env, b.programOperations, AsProgram(b.header.height))
  }

  /* ---------- building a block ---------- */

  datatype Built = Built(
    state: Snapshot, transactions: seq<Transaction>, assets: seq<AssetOperation>, tokens: seq<TokenOperation>,
    swaps: seq<MnaSwapOperation>, reserves: seq<MnaReserveOperation>, programs: seq<ProgramOperation>)

  /** The mempool transactions that the store does not hold yet. */
  function Unstored(env: Env, d: Disk, txs: seq<Transaction>): seq<Transaction> {
    if txs == [] then []
    else if env.txId(txs[0].unsigned) in d.transactions then Unstored(env, d, txs[1..])
    else [txs[0]] + Unstored(env, d, txs[1..])
  }

  function Build(env: Env, s: Snapshot, txs: seq<Transaction>, p: Pools, height: nat): Built {
    var a := Sift(env, s, txs, AsTransfer);
    var b := Sift(env, a.state, p.assets, AsBridge);
    var c := Sift(env, b.state, p.tokens, AsToken);
    var d := Sift(env, c.state, p.swaps, AsSwap);
    var e := Sift(env, d.state, p.reserves, AsReserve);
    var f := Sift(env, e.state, p.programs, AsProgram(height));
    Built(f.state, a.kept, b.kept, c.kept, d.kept, e.kept, f.kept)
  }

  function Unsealed(env: Env, n: NodeView, built: Built, proposer: Option<PublicKey>, timestamp: nat): Block {
    var height := n.latest.header.height + 1;
    var header := BlockHeader(1, n.genesis.chainId, height, env.blockId(n.latest.header), timestamp,
                              ZERO_HASH, env.stateRoot(built.state), proposer, None);
    var block := Block(header, built.transactions, built.assets, built.tokens, built.swaps, built.reserves,
      built.programs);
    block.(header := header.(transactionRoot := env.merkleRoot(BlockIds(env, block))))
  }

  function Seal(env: Env, n: NodeView, built: Built, proposer: Option<PublicKey>, timestamp: nat): Block {
    var block := Unsealed(env, n, built, proposer, timestamp);
    if proposer.None? then block
    else block.(header := block.header.(proposerSignature := Some(env.signHeader(proposer.value, block.header))))
  }

  /** The block is stored and becomes the latest, with its state. */
  function Extended(env: Env, n: NodeView, b: Block, s: Snapshot): NodeView {
    n.(state := s, latest := b, disk := Committed(env, n.disk, env.blockId(b.header), b, s))
  }

  predicate IsExpectedProposer(n: NodeView, key: PublicKey) {
    var next := ProposerForHeight(n.genesis.validators, n.latest.header.height + 1, 0);
    next.None? || next.value.publicKey == key
  }

  datatype Acted<T> = Acted(view: NodeView, result: Result<T, NodeError>)

  function Produce(env: Env, n: NodeView, proposer: Option<PublicKey>, timestamp: nat): Acted<Block> {
    if proposer.Some? && !IsExpectedProposer(n, proposer.value) then Acted(n, Err(NotProposer))
    else
      var txs := Unstored(env, n.disk, n.pools.transactions);
      var built := Build(env, n.state, txs, n.pools, n.latest.header.height + 1);
      var block := Seal(env, n, built, proposer, timestamp);
      Acted(Extended(env, n.(pools := EMPTY_POOLS), block, built.state), Ok(block))
  }

  function Faucet(env: Env, n: NodeView, a: Address, amount: u128, timestamp: nat): Acted<Block> {
    if !IsDevnet(n.genesis.chainId) then Acted(n, Err(FaucetDisabled))
    else match CreditDevnet(n.state, a, amount)
      case Err(e) => Acted(n, Err(OfState(e)))
      case Ok(s) =>
        var block := Seal(env, n, Built(s, [], [], [], [], [], []), None, timestamp);
        Acted(Extended(env, n, block, s), Ok(block))
  }

  /* ---------- importing a block ---------- */

  function ReplayBlock(env: Env, s: Snapshot, b: Block): Result<Snapshot, Refusal> {
    var s1 :- Replayed(env, s, b.transactions, AsTransfer);
    var s2 :- Replayed(env, s1, b.assetOperations, AsBridge);
    var s3 :- Replayed(env, s2, b.tokenOperations, AsToken);
    var s4 :- Replayed(env, s3, b.swapOperations, AsSwap);
    var s5 :- Replayed(env, s4, b.reserveOperations, AsReserve);
    Replayed(env, s5, b.programOperations, AsProgram(b.header.height))
  }

  function CheckProposer(env: Env, genesis: GenesisConfig, h: BlockHeader): Result<(), BlockFault> {
    if h.proposer.Some? && h.proposerSignature.Some? then
      if h.proposer.value !in KeysOf(genesis.validators) then Err(UnknownProposer)
      else if ProposerForHeight(genesis.validators, h.height, 0).None?
              || ProposerForHeight(genesis.validators, h.height, 0).value.publicKey != h.proposer.value
      then Err(NotScheduled)
      else if !env.headerSigned(h) then Err(BadProposerSignature)
      else Ok(())
    else if h.proposer.None? && h.proposerSignature.None? then
      if genesis.validators == [] || IsDevnet(genesis.chainId) then Ok(()) else Err(ProposerRequired)
    else Err(UnpairedProposer)
  }

  function CheckHeader(env: Env, n: NodeView, h: BlockHeader): Result<(), BlockFault> {
    if h.chainId != n.genesis.chainId then Err(WrongChain)
    else if h.height != n.latest.header.height + 1 then Err(WrongHeight)
    else if h.parentHash != env.blockId(n.latest.header) then Err(WrongParent)
    else CheckProposer(env, n.genesis, h)
  }

  /** Pending transactions after a block has carried some of them. */
  function WithoutIds(env: Env, txs: seq<Transaction>, ids: seq<Hash>): seq<Transaction> {
    if txs == [] then []
    else if env.txId(txs[0].unsigned) in ids then WithoutIds(env, txs[1..], ids)
    else [txs[0]] + WithoutIds(env, txs[1..], ids)
  }

  function RemoveIds(env: Env, p: Pools, ids: seq<Hash>): Pools {
    p.(ids := p.ids - (set id | id in ids), transactions := WithoutIds(env, p.transactions, ids))
  }

  function FaultOf(r: Refusal): NodeError {
    match r
    case Rejected(e) => OfState(e)
    case Duplicate => InvalidBlock(DuplicateOperation)
  }

  /** The checks between replaying a block and storing it. */
  function CheckRoots(env: Env, b: Block, s: Snapshot): Result<(), BlockFault> {
    if env.merkleRoot(BlockIds(env, b)) != b.header.transactionRoot then Err(TransactionRootMismatch)
    else if env.stateRoot(s) != b.header.stateRoot then Err(StateRootMismatch)
    else Ok(())
  }

  function Import(env: Env, n: NodeView, b: Block): Acted<Hash> {
    var hash := env.blockId(b.header);
    if b.header.version != 1 then Acted(n, Err(InvalidBlock(UnsupportedBlockVersion)))
    else if hash in n.disk.blocks then Acted(n, Ok(hash))
    else
      var header := CheckHeader(env, n, b.header);
      if header.Err? then Acted(n, Err(InvalidBlock(header.error)))
      else
        var replay := ReplayBlock(env, n.state, b);
        if replay.Err? then Acted(n, Err(FaultOf(replay.error)))
        else
          var roots := CheckRoots(env, b, replay.value);
          if roots.Err? then Acted(n, Err(InvalidBlock(roots.error)))
          else Acted(Extended(env, n, b, replay.value).(pools := RemoveIds(env, n.pools, BlockIds(env, b))), Ok(hash))
  }

  /* ---------- finality ---------- */

  predicate VotesValid(env: Env, genesis: GenesisConfig, ballot: Ballot, hash: Hash) {
    forall k | k in ballot.votes ::
      ValidateVote(env, KeysOf(genesis.validators), ballot.votes[k], genesis.chainId,
                   ballot.height, ballot.round, hash).Ok?
  }

  function FinalizeVotes(env: Env, n: NodeView, ballot: Ballot): Acted<nat> {
    var hash := env.blockId(n.latest.header);
    if ballot.height != n.latest.header.height then Acted(n, Err(InvalidBlock(VoteHeightNotLatest)))
    else if ballot.blockHash != hash then Acted(n, Err(InvalidBlock(VotesForAnotherBlock)))
    else if !IsQuorum(|KeysOf(n.genesis.validators)|, |ballot.votes|) then Acted(n, Err(NoConsensus))
    else if !VotesValid(env, n.genesis, ballot, hash) then Acted(n, Err(NoConsensus))
    else
      var marked := Marked(n.disk, ballot.height, hash);
      match marked.result
      case Err(e) => Acted(n.(disk := marked.disk), Err(OfStorage(e)))
      case Ok(_) => Acted(n.(disk := marked.disk), Ok(ballot.height))
  }

  /* ---------- opening a node on a store ---------- */

  function GenesisBlock(env: Env, genesis: GenesisConfig, s: Snapshot): Block {
    Block(BlockHeader(1, genesis.chainId, 0, ZERO_HASH, genesis.genesisTime, env.merkleRoot([]), env.stateRoot(s),
      None, None),
          [], [], [], [], [], [])
  }

  datatype Opened = Opened(disk: Disk, result: Result<NodeView, NodeError>)

  function Open(env: Env, genesis: GenesisConfig, d: Disk): Opened {
    var first := InitialState(genesis);
    if first.None? then Opened(d, Err(InvalidGenesis))
    else
      var ensured := Ensured(env, d, genesis.chainId, GenesisBlock(env, genesis, first.value), first.value);
      if ensured.result.Err? then Opened(ensured.disk, Err(OfStorage(ensured.result.error)))
      else Opened(ensured.disk, Loaded(env, genesis, ensured.disk))
  }

  function Loaded(env: Env, genesis: GenesisConfig, d: Disk): Result<NodeView, NodeError> {
    var latest := LatestBlock(d);
    if latest.Err? then Err(OfStorage(latest.error))
    else if d.state.None? then Err(OfStorage(Missing))
    else if latest.value.header.chainId != genesis.chainId then Err(CorruptChain)
    else if env.stateRoot(d.state.value) != latest.value.header.stateRoot then Err(CorruptChain)
    else Ok(NodeView(genesis, d.state.value, latest.value, d, EMPTY_POOLS))
  }

  /* ---------- submitting operations ---------- */

  function SubmitTransaction(env: Env, n: NodeView, tx: Transaction): Acted<Hash> {
    var id := env.txId(tx.unsigned);
    if id in n.disk.transactions then Acted(n, Err(DuplicateTransaction))
    else if |n.pools.transactions| >= MAX_MEMPOOL_TRANSACTIONS then Acted(n, Err(MempoolFull))
    else
      var valid := ValidateTransaction(env, n.state, tx);
      if valid.Err? then Acted(n, Err(OfState(valid.error)))
      else if id in n.pools.ids then Acted(n, Err(DuplicateTransaction))
      else Acted(n.(pools := n.pools.(transactions := n.pools.transactions + [tx], ids := n.pools.ids + {id})), Ok(id))
  }

  /** The other pools refuse an identity that is already pending or already in the ledger's records. */
  function Submit(env: Env, n: NodeView, op: Op): Acted<Hash> {
    var id := OpId(env, op);
    match op
    case Transfer(tx) => SubmitTransaction(env, n, tx)
    case Bridge(o) =>
      if o.version != 1 then Acted(n, Err(InvalidPending))
      else if id in n.state.assets.processed || id in Ids(env, n.pools.assets, AsBridge)
      then Acted(n, Err(DuplicatePending))
      else Acted(n.(pools := n.pools.(assets := n.pools.assets + [o])), Ok(id))
    case Token(o) =>
      if id in n.state.tokens.processed || id in Ids(env, n.pools.tokens, AsToken) then Acted(n, Err(DuplicatePending))
      else
        var valid := ValidateToken(env, n.state, o);
        if valid.Err? then Acted(n, Err(OfState(valid.error)))
        else Acted(n.(pools := n.pools.(tokens := n.pools.tokens + [o])), Ok(id))
    case Swap(o) =>
      if id in n.state.mna.swapRecords || id in Ids(env, n.pools.swaps, AsSwap) then Acted(n, Err(DuplicatePending))
      else
        var valid := ValidateSwap(env, n.state, o);
        if valid.Err? then Acted(n, Err(OfState(valid.error)))
        else Acted(n.(pools := n.pools.(swaps := n.pools.swaps + [o])), Ok(id))
    case Reserve(o) =>
      if id in n.state.mna.reserveRecords || id in Ids(env, n.pools.reserves, AsReserve)
      then Acted(n, Err(DuplicatePending))
      else
        var valid := ValidateReserve(env, n.state, o);
        if valid.Err? then Acted(n, Err(OfState(valid.error)))
        else Acted(n.(pools := n.pools.(reserves := n.pools.reserves + [o])), Ok(id))
    case Program(o, _) =>
      if id in n.state.programs.receipts || id in Ids(env, n.pools.programs, AsProgram(0))
      then Acted(n, Err(DuplicatePending))
      else
        var valid := ProgramEffect(env, n.state, o, 0);
        if valid.Err? then Acted(n, Err(OfState(valid.error)))
        else Acted(n.(pools := n.pools.(programs := n.pools.programs + [o])), Ok(id))
    case Credit(_, _) => Acted(n, Err(InvalidPending))
  }
}
