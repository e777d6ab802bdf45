/** Over every run of a node its store is one unbroken chain, and the finality marker stays on it. */
module Chain {
  import opened Wrappers
  import opened Core
  import opened Ledger
  import opened Genesis
  import opened Replay
  import opened Storage
  import opened Consensus
  import opened Nodes
  import opened BlockReplay

  /** SHA-256 over encoded headers is treated as collision free. */
  ghost predicate HeadersHashApart(env: Env) {
    forall h: BlockHeader, k: BlockHeader :: env.blockId(h) == env.blockId(k) ==> h == k
  }

  /** The block at height h is stored under its own hash and names the block below it. */
  ghost predicate LinkAt(env: Env, d: Disk, h: nat) {
    && h in d.heights && d.heights[h] in d.blocks
    && var header := d.blocks[d.heights[h]].header;
       header.height == h && env.blockId(header) == d.heights[h]
       && (h > 0 ==> h - 1 in d.heights && header.parentHash == d.heights[h - 1])
  }

  /** One stored block at every height up to `top`, each naming its predecessor, and no others. */
  ghost predicate Linked(env: Env, d: Disk, top: nat) {
    && (forall h: nat :: h in d.heights <==> h <= top)
    && (forall h: nat :: h <= top ==> LinkAt(env, d, h))
    && (forall x | x in d.blocks :: d.blocks[x].header.height in d.heights && d.heights[d.blocks[x].header.height] == x)
  }

  /** The markers: genesis at the bottom, the latest block on top, the finalised block in between. */
  ghost predicate Marks(m: Meta, heights: map<nat, Hash>, chainId: string, top: nat) {
    && 0 in heights && top in heights
    && m.chainId == Some(chainId) && m.genesisHash == Some(heights[0])
    && m.latestHeight == Some(top) && m.latestHash == Some(heights[top])
    && m.finalizedHeight.Some? && m.finalizedHeight.value in heights
    && m.finalizedHash == Some(heights[m.finalizedHeight.value])
  }

  ghost predicate StartsAt(env: Env, genesis: GenesisConfig, bottom: Hash) {
    InitialState(genesis).Some? && bottom == env.blockId(GenesisBlock(env, genesis, InitialState(genesis).value).header)
  }

  ghost predicate ChainOk(env: Env, n: NodeView) {
    var d, top := n.disk, n.latest.header.height;
    && Linked(env, d, top)
    && Marks(d.meta, d.heights, n.genesis.chainId, top)
    && LinkAt(env, d, top) && d.blocks[d.heights[top]] == n.latest
    && n.latest.header.chainId == n.genesis.chainId
    && d.state == Some(n.state) && env.stateRoot(n.state) == n.latest.header.stateRoot
    && StartsAt(env, n.genesis, d.heights[0])
  }

  /** Nothing stored is lost or replaced, and finality does not move back. */
  ghost predicate Grows(n: NodeView, n': NodeView) {
    && n'.genesis == n.genesis
    && (forall x | x in n.disk.blocks :: x in n'.disk.blocks && n'.disk.blocks[x] == n.disk.blocks[x])
    && (forall h | h in n.disk.heights :: h in n'.disk.heights && n'.disk.heights[h] == n.disk.heights[h])
    && (n.disk.meta.finalizedHeight.Some? && n'.disk.meta.finalizedHeight.Some? ==>
          n.disk.meta.finalizedHeight.value <= n'.disk.meta.finalizedHeight.value)
  }

  /* ---------- one block more ---------- */

  predicate Follows(env: Env, n: NodeView, b: Block, s: Snapshot) {
    && b.header.height == n.latest.header.height + 1
    && b.header.parentHash == env.blockId(n.latest.header)
    && b.header.chainId == n.genesis.chainId
    && b.header.stateRoot == env.stateRoot(s)
  }

  lemma NextBlockIsNew(env: Env, d: Disk, top: nat, h: BlockHeader)
    requires HeadersHashApart(env) && Linked(env, d, top) && h.height > top
    ensures env.blockId(h) !in d.blocks
  {
    forall x | x in d.blocks ensures x != env.blockId(h) {
      assert LinkAt(env, d, d.blocks[x].header.height);
    }
  }

  lemma LinkStays(env: Env, d: Disk, hash: Hash, b: Block, s: Snapshot, h: nat)
    requires LinkAt(env, d, h) && hash !in d.blocks && h < b.header.height
    ensures LinkAt(env, Committed(env, d, hash, b, s), h)
  {
    hide Indexed;
  }

  lemma LinkedExtends(env: Env, d: Disk, top: nat, b: Block, s: Snapshot)
    requires HeadersHashApart(env) && Linked(env, d, top)
    requires b.header.height == top + 1 && b.header.parentHash == d.heights[top]
    ensures Linked(env, Committed(env, d, env.blockId(b.header), b, s), top + 1)
  {
    hide Indexed;
    NextBlockIsNew(env, d, top, b.header);
    var d' := Committed(env, d, env.blockId(b.header), b, s);
    assert LinkAt(env, d', top + 1);
    forall h: nat | h <= top ensures LinkAt(env, d', h) {
      LinkStays(env, d, env.blockId(b.header), b, s, h);
    }
  }

  lemma LatestIsLinked(env: Env, n: NodeView)
    requires ChainOk(env, n)
    ensures n.disk.heights[n.latest.header.height] == env.blockId(n.latest.header)
    ensures LinkAt(env, n.disk, n.latest.header.height) && LinkAt(env, n.disk, 0)
  {
  }

  lemma ExtendedKeepsChain(env: Env, n: NodeView, b: Block, s: Snapshot)
    requires HeadersHashApart(env) && ChainOk(env, n) && Follows(env, n, b, s)
    ensures ChainOk(env, Extended(env, n, b, s)) && Grows(n, Extended(env, n, b, s))
  {
    hide Indexed, StartsAt, Linked;
    LatestIsLinked(env, n);
    LinkedExtends(env, n.disk, n.latest.header.height, b, s);
    NextBlockIsNew(env, n.disk, n.latest.header.height, b.header);
    HeightIsFree(env, n.disk, n.latest.header.height);
  }

  lemma HeightIsFree(env: Env, d: Disk, top: nat)
    requires Linked(env, d, top)
    ensures top + 1 !in d.heights
  {
  }

  /* ---------- runs of a node ---------- */

  datatype Event =
    | Submitted(op: Op)
    | Produced(proposer: Option<PublicKey>, timestamp: nat)
    | Fauceted(to: Address, amount: u128, timestamp: nat)
    | Imported(block: Block)
    | Counted(ballot: Ballot)
    | Restarted

  function NodeStep(env: Env, n: NodeView, e: Event): NodeView {
    match e
    case Submitted(op) => Submit(env, n, op).view
    case Produced(proposer, timestamp) => Produce(env, n, proposer, timestamp).view
    case Fauceted(a, amount, timestamp) => Faucet(env, n, a, amount, timestamp).view
    case Imported(b) => Import(env, n, b).view
    case Counted(ballot) => FinalizeVotes(env, n, ballot).view
    case Restarted =>
      var r := Open(env, n.genesis, n.disk).result;
      if r.Ok? then r.value else n
  }

  function NodeRun(env: Env, n: NodeView, events: seq<Event>): NodeView
    decreases |events|
  {
    if events == [] then n else NodeRun(env, NodeStep(env, n, events[0]), events[1..])
  }

  lemma SubmitKeepsChain(env: Env, n: NodeView, op: Op)
    ensures Submit(env, n, op).view == n.(pools := Submit(env, n, op).view.pools)
  {
    hide ValidateTransaction, ValidateToken, ValidateSwap, ValidateReserve, ProgramEffect, Ids;
  }

  lemma ProducedFollows(env: Env, n: NodeView, proposer: Option<PublicKey>, timestamp: nat)
    ensures var p := Produce(env, n, proposer, timestamp);
            p.result.Ok? ==>
              Follows(env, n, p.result.value, p.view.state)
              && p.view == Extended(env, n.(pools := EMPTY_POOLS), p.result.value, p.view.state)
  {
    hide Build, BlockIds, Unstored;
  }

  lemma ImportedFollows(env: Env, n: NodeView, b: Block)
    ensures var i := Import(env, n, b);
            (i.result.Ok? && env.blockId(b.header) !in n.disk.blocks ==>
               Follows(env, n, b, i.view.state) && i.view == Extended(env, n, b, i.view.state).(pools := i.view.pools))
            && (i.result.Err? || env.blockId(b.header) in n.disk.blocks ==> i.view == n)
  {
    hide ReplayBlock, BlockIds, Committed, CheckProposer, RemoveIds;
  }

  lemma FaucetFollows(env: Env, n: NodeView, a: Address, amount: u128, timestamp: nat)
    ensures var p := Faucet(env, n, a, amount, timestamp);
            if p.result.Ok? then
              Follows(env, n, p.result.value, p.view.state) && p.view == Extended(env, n, p.result.value, p.view.state)
            else p.view == n
  {
    hide BlockIds, IsDevnet;
  }

  lemma LinkedIgnoresMeta(env: Env, d: Disk, m: Meta, top: nat)
    requires Linked(env, d, top)
    ensures Linked(env, d.(meta := m), top)
  {
    forall h: nat | h <= top ensures LinkAt(env, d.(meta := m), h) {
      assert LinkAt(env, d, h);
    }
  }

  lemma CountedKeepsChain(env: Env, n: NodeView, ballot: Ballot)
    requires ChainOk(env, n)
    ensures var f := FinalizeVotes(env, n, ballot).view; ChainOk(env, f) && Grows(n, f)
  {
    hide IsQuorum, VotesValid, StartsAt, Linked;
    LatestIsLinked(env, n);
    LinkedIgnoresMeta(env, n.disk, FinalizeVotes(env, n, ballot).view.disk.meta, n.latest.header.height);
  }

  /** A restart on a node's own store finds the same chain and state; only the pools are lost. */
  lemma RestartLosesOnlyPools(env: Env, n: NodeView)
    requires ChainOk(env, n)
    ensures Open(env, n.genesis, n.disk) == Opened(n.disk, Ok(n.(pools := EMPTY_POOLS)))
  {
    hide GenesisBlock, InitialState, Linked;
    LatestIsLinked(env, n);
  }

  lemma StepKeepsChain(env: Env, n: NodeView, e: Event)
    requires HeadersHashApart(env) && ChainOk(env, n)
    ensures ChainOk(env, NodeStep(env, n, e)) && Grows(n, NodeStep(env, n, e))
  {
    hide Extended, Follows, Produce, Import, Faucet, Submit, FinalizeVotes, Open, StartsAt;
    match e
    case Submitted(op) => SubmitKeepsChain(env, n, op);
    case Produced(proposer, timestamp) => ProduceStep(env, n, proposer, timestamp);
    case Fauceted(a, amount, timestamp) => FaucetStep(env, n, a, amount, timestamp);
    case Imported(b) => ImportStep(env, n, b);
    case Counted(ballot) => CountedKeepsChain(env, n, ballot);
    case Restarted => RestartLosesOnlyPools(env, n);
  }

  lemma ProduceStep(env: Env, n: NodeView, proposer: Option<PublicKey>, timestamp: nat)
    requires HeadersHashApart(env) && ChainOk(env, n)
    ensures var next := Produce(env, n, proposer, timestamp).view; ChainOk(env, next) && Grows(n, next)
  {
    hide Build, BlockIds, Unstored, Linked, StartsAt, Marks;
    var p := Produce(env, n, proposer, timestamp);
    if p.result.Ok? {
      ProducedFollows(env, n, proposer, timestamp);
      hide Produce;
      ExtendedKeepsChain(env, n.(pools := EMPTY_POOLS), p.result.value, p.view.state);
    }
  }

  lemma FaucetStep(env: Env, n: NodeView, a: Address, amount: u128, timestamp: nat)
    requires HeadersHashApart(env) && ChainOk(env, n)
    ensures var next := Faucet(env, n, a, amount, timestamp).view; ChainOk(env, next) && Grows(n, next)
  {
    hide Faucet, Linked, StartsAt, Marks, Extended;
    var p := Faucet(env, n, a, amount, timestamp);
    FaucetFollows(env, n, a, amount, timestamp);
    if p.result.Ok? {
      ExtendedKeepsChain(env, n, p.result.value, p.view.state);
    }
  }

  lemma ImportStep(env: Env, n: NodeView, b: Block)
    requires HeadersHashApart(env) && ChainOk(env, n)
    ensures var next := Import(env, n, b).view; ChainOk(env, next) && Grows(n, next)
  {
    hide Import, Linked, StartsAt, Marks;
    var i := Import(env, n, b);
    ImportedFollows(env, n, b);
    if i.view != n {
      ExtendedKeepsChain(env, n, b, i.view.state);
    }
  }

  /** Whatever a node does, in whatever order: one block at every height, each naming its predecessor, the latest
      state matching the latest root, finality on the chain and never moving back, and nothing stored ever replaced. */
  lemma {:induction false} RunsKeepChain(env: Env, n: NodeView, events: seq<Event>)
    requires HeadersHashApart(env) && ChainOk(env, n)
    ensures ChainOk(env, NodeRun(env, n, events)) && Grows(n, NodeRun(env, n, events))
    decreases |events|
  {
    hide NodeStep;
    if events != [] {
      StepKeepsChain(env, n, events[0]);
      hide ChainOk;
      RunsKeepChain(env, NodeStep(env, n, events[0]), events[1..]);
    }
  }

  /** A node opened on an empty store starts such a chain. */
  lemma FreshNodeHasChain(env: Env, genesis: GenesisConfig)
    requires InitialState(genesis).Some?
    ensures Open(env, genesis, EMPTY_DISK).result.Ok? && ChainOk(env, Open(env, genesis, EMPTY_DISK).result.value)
  {
    hide InitialState;
  }

  /* ---------- pools, and the replay theorem on chains ---------- */

  lemma IdsExtend<T>(env: Env, items: seq<T>, x: T, op: T -> Op)
    requires AllDifferent(Ids(env, items, op)) && OpId(env, op(x)) !in Ids(env, items, op)
    ensures AllDifferent(Ids(env, items + [x], op))
    ensures (set id | id in Ids(env, items + [x], op)) == (set id | id in Ids(env, items, op)) + {OpId(env, op(x))}
  {
    hide OpId;
    assert Ids(env, items + [x], op) == Ids(env, items, op) + [OpId(env, op(x))];
  }

  lemma SubmitKeepsPools(env: Env, n: NodeView, op: Op)
    requires PoolsDistinct(env, n.pools)
    ensures PoolsDistinct(env, Submit(env, n, op).view.pools)
  {
    hide ValidateTransaction, ValidateToken, ValidateSwap, ValidateReserve, ProgramEffect, AllDifferent, Ids;
    if Submit(env, n, op).result.Ok? {
      match op
      case Transfer(tx) =>
        TransferIdentity(env, n.state, tx);
        IdsExtend(env, n.pools.transactions, tx, AsTransfer);
      case Bridge(o) => IdsExtend(env, n.pools.assets, o, AsBridge);
      case Token(o) => IdsExtend(env, n.pools.tokens, o, AsToken);
      case Swap(o) => IdsExtend(env, n.pools.swaps, o, AsSwap);
      case Reserve(o) => IdsExtend(env, n.pools.reserves, o, AsReserve);
      case Program(o, height) => IdsExtend(env, n.pools.programs, o, AsProgram(0));
      case Credit(_, _) =>
    }
  }

  lemma TransferIdentity(env: Env, s: Snapshot, tx: Transaction)
    ensures ValidateTransaction(env, s, tx).Ok? ==> ValidateTransaction(env, s, tx).value == env.txId(tx.unsigned)
  {
  }

  /** Taking carried transactions out of the mempool leaves the rest, in step with the identity set. */
  lemma {:induction false} WithoutIdsKeepsRest(env: Env, txs: seq<Transaction>, gone: seq<Hash>)
    requires AllDifferent(Ids(env, txs, AsTransfer))
    ensures var rest := Ids(env, WithoutIds(env, txs, gone), AsTransfer);
            && AllDifferent(rest)
            && forall id :: id in rest <==> id in Ids(env, txs, AsTransfer) && id !in gone
    decreases |txs|
  {
    if txs != [] {
      var tail := txs[1..];
      assert Ids(env, txs, AsTransfer) == [env.txId(txs[0].unsigned)] + Ids(env, tail, AsTransfer);
      assert AllDifferent(Ids(env, tail, AsTransfer)) by {
        assert forall i | 0 <= i < |tail| :: Ids(env, tail, AsTransfer)[i] == Ids(env, txs, AsTransfer)[i + 1];
      }
      WithoutIdsKeepsRest(env, tail, gone);
      var rest := WithoutIds(env, tail, gone);
      if env.txId(txs[0].unsigned) !in gone {
        assert Ids(env, [txs[0]] + rest, AsTransfer) == [env.txId(txs[0].unsigned)] + Ids(env, rest, AsTransfer);
        assert env.txId(txs[0].unsigned) !in Ids(env, tail, AsTransfer);
      }
    }
  }

  lemma RemoveIdsKeepsPools(env: Env, p: Pools, gone: seq<Hash>)
    requires PoolsDistinct(env, p)
    ensures PoolsDistinct(env, RemoveIds(env, p, gone))
  {
    hide AllDifferent, Ids, WithoutIds;
    WithoutIdsKeepsRest(env, p.transactions, gone);
  }

  /** Pending identities stay distinct along every run: submission refuses repeats, blocks only take away. */
  lemma StepKeepsPools(env: Env, n: NodeView, e: Event)
    requires PoolsDistinct(env, n.pools)
    ensures PoolsDistinct(env, NodeStep(env, n, e).pools)
  {
    hide Submit, Build, BlockIds, Unstored, ReplayBlock, Ensured, Loaded, CheckHeader, CheckRoots, AllDifferent, Ids,
         RemoveIds, CreditDevnet, IsQuorum, VotesValid;
    EmptyPoolsDistinct(env);
    match e
    case Submitted(op) => SubmitKeepsPools(env, n, op);
    case Produced(proposer, timestamp) =>
    case Fauceted(a, amount, timestamp) =>
    case Imported(b) => RemoveIdsKeepsPools(env, n.pools, BlockIds(env, b));
    case Counted(ballot) =>
    case Restarted => LoadedPools(env, n.genesis, Open(env, n.genesis, n.disk).disk);
  }

  lemma LoadedPools(env: Env, genesis: GenesisConfig, d: Disk)
    ensures Loaded(env, genesis, d).Ok? ==> Loaded(env, genesis, d).value.pools == EMPTY_POOLS
  {
  }

  lemma EmptyPoolsDistinct(env: Env)
    ensures PoolsDistinct(env, EMPTY_POOLS)
  {
  }

  lemma {:induction false} RunsKeepPools(env: Env, n: NodeView, events: seq<Event>)
    requires PoolsDistinct(env, n.pools)
    ensures PoolsDistinct(env, NodeRun(env, n, events).pools)
    decreases |events|
  {
    hide NodeStep, PoolsDistinct;
    if events != [] {
      StepKeepsPools(env, n, events[0]);
      RunsKeepPools(env, NodeStep(env, n, events[0]), events[1..]);
    }
  }

  /** Producer and replica may each have reached the common state by any run of their own. The replica accepts the
      next block and ends in exactly the producer's state if and only if the proposal is allowed and the producer's
      pending operations were clean. */
  lemma ReplicaFollows(env: Env, n0: NodeView, m0: NodeView, produced: seq<Event>, followed: seq<Event>,
                       proposer: Option<PublicKey>, timestamp: nat)
    requires Metered(env) && HeaderSignaturesVerify(env) && HeadersHashApart(env)
    requires PoolsDistinct(env, n0.pools) && ChainOk(env, m0)
    requires var n, m := NodeRun(env, n0, produced), NodeRun(env, m0, followed);
             m.genesis == n.genesis && m.state == n.state && m.latest == n.latest
    ensures var n, m := NodeRun(env, n0, produced), NodeRun(env, m0, followed);
            var p := Produce(env, n, proposer, timestamp);
            p.result.Ok? ==>
              var i := Import(env, m, p.result.value);
              (i.result.Ok? && i.view.state == p.view.state
               <==> ProposalAllowed(n, proposer) && Clean(env, n.state, PendingOps(env, n)))
  {
    hide NodeRun, NodeStep, PoolsDistinct, Produce, Import, Clean, Follows, Linked, Marks, StartsAt, PendingOps,
         HeaderSignaturesVerify;
    var n, m := NodeRun(env, n0, produced), NodeRun(env, m0, followed);
    RunsKeepPools(env, n0, produced);
    RunsKeepChain(env, m0, followed);
    var p := Produce(env, n, proposer, timestamp);
    if p.result.Ok? {
      ProducedHeight(env, n, proposer, timestamp);
      NextBlockIsNew(env, m.disk, m.latest.header.height, p.result.value.header);
      ImportReproduces(env, n, m, proposer, timestamp);
    }
  }

  lemma ProducedHeight(env: Env, n: NodeView, proposer: Option<PublicKey>, timestamp: nat)
    ensures var p := Produce(env, n, proposer, timestamp);
            p.result.Ok? ==> p.result.value.header.height == n.latest.header.height + 1
  {
    ProducedFollows(env, n, proposer, timestamp);
  }
}
