/** The node object: its store, its mempool and its pools change in place, each method as `Nodes` says. */
module NodeObject {
  import opened Wrappers
  import opened Core
  import opened Ledger
  import opened LedgerState
  import opened Genesis
  import opened Replay
  import opened Storage
  import opened Consensus
  import opened Nodes

  class Mempool {
    const env: Env
    var transactions: seq<Transaction>
    var ids: set<Hash>

    constructor (env: Env)
      ensures this.env == env && transactions == [] && ids == {}
    {
      this.env, transactions, ids := env, [], {};
    }

    method Admit(s: Snapshot, tx: Transaction) returns (r: Result<Hash, NodeError>)
      modifies this
      ensures if |old(transactions)| >= MAX_MEMPOOL_TRANSACTIONS then r == Err(MempoolFull)
              else if ValidateTransaction(env, s, tx).Err? then r == Err(OfState(ValidateTransaction(env, s, tx).error))
              else if env.txId(tx.unsigned) in old(ids) then r == Err(DuplicateTransaction)
              else r == Ok(env.txId(tx.unsigned))
      ensures transactions == old(transactions) + (if r.Ok? then [tx] else [])
      ensures ids == old(ids) + (if r.Ok? then {env.txId(tx.unsigned)} else {})
    {
      if |transactions| >= MAX_MEMPOOL_TRANSACTIONS {
        return Err(MempoolFull);
      }
      var valid := ValidateTransaction(env, s, tx);
      if valid.Err? {
        return Err(OfState(valid.error));
      }
      if valid.value in ids {
        return Err(DuplicateTransaction);
      }
      ids := ids + {valid.value};
      transactions := transactions + [tx];
      return Ok(valid.value);
    }

    method Drain() returns (drained: seq<Transaction>)
      modifies this
      ensures drained == old(transactions) && transactions == [] && ids == {}
    {
      ids := {};
      drained := transactions;
      transactions := [];
    }

    method RemoveIds(gone: seq<Hash>)
      modifies this
      ensures ids == old(ids) - (set id | id in gone)
      ensures transactions == WithoutIds(env, old(transactions), gone)
    {
      for i := 0 to |gone|
        invariant ids == old(ids) - (set id | id in gone[..i])
        invariant transactions == old(transactions)
      {
        ids := ids - {gone[i]};
      }
      var all, kept := transactions, [];
      for i := 0 to |all|
        invariant WithoutIds(env, all, gone) == kept + WithoutIds(env, all[i..], gone)
        invariant ids == old(ids) - (set id | id in gone)
      {
        assert all[i..][1..] == all[i + 1..];
        if env.txId(all[i].unsigned) !in gone {
          kept := kept + [all[i]];
        }
      }
      transactions := kept;
    }
  }

  class Node {
    const env: Env
    const genesis: GenesisConfig
    const store: Store
    const mempool: Mempool
    var state: Snapshot
    var latest: Block
    var assets: seq<AssetOperation>
    var tokens: seq<TokenOperation>
    var swaps: seq<MnaSwapOperation>
    var reserves: seq<MnaReserveOperation>
    var programs: seq<ProgramOperation>

    /** A node on a store that opening found in order. */
    constructor (env: Env, genesis: GenesisConfig, store: Store, state: Snapshot, latest: Block)
      requires store.env == env
      ensures this.env == env && this.store == store && Valid() && fresh(mempool)
      ensures View() == NodeView(genesis, state, latest, store.View(), EMPTY_POOLS)
    {
      this.env, this.genesis, this.store, this.state, this.latest := env, genesis, store, state, latest;
      mempool := new Mempool(env);
      assets, tokens, swaps, reserves, programs := [], [], [], [], [];
    }

    ghost predicate Valid() {
      store.env == env && mempool.env == env
    }

    function View(): NodeView
      reads this, store, mempool
    {
      NodeView(genesis, state, latest, store.View(),
               Pools(mempool.transactions, mempool.ids, assets, tokens, swaps, reserves, programs))
    }

    /* ---------- submission ---------- */

    method SubmitTransaction(tx: Transaction) returns (r: Result<Hash, NodeError>)
      requires Valid()
      modifies mempool
      ensures Acted(View(), r) == Submit(env, old(View()), Transfer(tx))
    {
      hide ValidateTransaction;
      if env.txId(tx.unsigned) in store.transactions {
        return Err(DuplicateTransaction);
      }
      r := mempool.Admit(state, tx);
    }

    method SubmitAssetOperation(o: AssetOperation) returns (r: Result<Hash, NodeError>)
      requires Valid()
      modifies this`assets
      ensures Acted(View(), r) == Submit(env, old(View()), Bridge(o))
    {
      if o.version != 1 {
        return Err(InvalidPending);
      }
      if o.operationId in state.assets.processed || o.operationId in Ids(env, assets, AsBridge) {
        return Err(DuplicatePending);
      }
      assets := assets + [o];
      return Ok(o.operationId);
    }

    method SubmitTokenOperation(o: TokenOperation) returns (r: Result<Hash, NodeError>)
      requires Valid()
      modifies this`tokens
      ensures Acted(View(), r) == Submit(env, old(View()), Token(o))
    {
      var id := env.tokenOpId(o.unsigned);
      if id in state.tokens.processed || id in Ids(env, tokens, AsToken) {
        return Err(DuplicatePending);
      }
      var valid := ValidateToken(env, state, o);
      if valid.Err? {
        return Err(OfState(valid.error));
      }
      tokens := tokens + [o];
      return Ok(id);
    }

    method SubmitMnaSwap(o: MnaSwapOperation) returns (r: Result<Hash, NodeError>)
      requires Valid()
      modifies this`swaps
      ensures Acted(View(), r) == Submit(env, old(View()), Op.Swap(o))
    {
      var id := env.swapId(o.unsigned);
      if id in state.mna.swapRecords || id in Ids(env, swaps, AsSwap) {
        return Err(DuplicatePending);
      }
      var valid := ValidateSwap(env, state, o);
      if valid.Err? {
        return Err(OfState(valid.error));
      }
      swaps := swaps + [o];
      return Ok(id);
    }

    method SubmitMnaReserveOperation(o: MnaReserveOperation) returns (r: Result<Hash, NodeError>)
      requires Valid()
      modifies this`reserves
      ensures Acted(View(), r) == Submit(env, old(View()), Op.Reserve(o))
    {
      var id := env.reserveId(o);
      if id in state.mna.reserveRecords || id in Ids(env, reserves, AsReserve) {
        return Err(DuplicatePending);
      }
      var valid := ValidateReserve(env, state, o);
      if valid.Err? {
        return Err(OfState(valid.error));
      }
      reserves := reserves + [o];
      return Ok(id);
    }

    method SubmitProgramOperation(o: ProgramOperation) returns (r: Result<Hash, NodeError>)
      requires Valid()
      modifies this`programs
      ensures Acted(View(), r) == Submit(env, old(View()), Program(o, 0))
    {
      var id := env.programOpId(o);
      if id in state.programs.receipts || id in Ids(env, programs, AsProgram(0)) {
        return Err(DuplicatePending);
      }
      var valid := ProgramEffect(env, state, o, 0);
      if valid.Err? {
        return Err(OfState(valid.error));
      }
      programs := programs + [o];
      return Ok(id);
    }

    /* ---------- producing ---------- */

    /** The mempool loop of block building: transactions already stored are passed over. */
    method KeepTransfers(next: State, pending: seq<Transaction>) returns (kept: seq<Transaction>)
      requires next.env == env
      modifies next
      ensures Sifted(next.View(), kept) == Sift(env, old(next.View()), Unstored(env, store.View(), pending), AsTransfer)
    {
      hide ApplyTransaction;
      kept := [];
      for i := 0 to |pending|
        invariant next.env == env
        invariant var rest := Sift(env, next.View(), Unstored(env, store.View(), pending[i..]), AsTransfer);
                  Sift(env, old(next.View()), Unstored(env, store.View(), pending), AsTransfer)
                  == Sifted(rest.state, kept + rest.kept)
      {
        assert pending[i..][1..] == pending[i + 1..];
        if env.txId(pending[i].unsigned) !in store.transactions {
          ghost var todo := Unstored(env, store.View(), pending[i..]);
          assert todo[0] == pending[i] && todo[1..] == Unstored(env, store.View(), pending[i + 1..]);
          var outcome := next.ApplyTransaction(pending[i]);
          if outcome.Done? {
            kept := kept + [pending[i]];
          }
        }
      }
    }

    method KeepBridges(next: State, pending: seq<AssetOperation>) returns (kept: seq<AssetOperation>)
      requires next.env == env
      modifies next
      ensures Sifted(next.View(), kept) == Sift(env, old(next.View()), pending, AsBridge)
    {
      hide ApplyAssetOperation;
      kept := [];
      for i := 0 to |pending|
        invariant next.env == env
        invariant var rest := Sift(env, next.View(), pending[i..], AsBridge);
                  Sift(env, old(next.View()), pending, AsBridge) == Sifted(rest.state, kept + rest.kept)
      {
        assert pending[i..][1..] == pending[i + 1..];
        var outcome := next.ApplyAssetOperation(pending[i]);
        if outcome.Done? {
          kept := kept + [pending[i]];
        }
      }
    }

    method KeepTokens(next: State, pending: seq<TokenOperation>) returns (kept: seq<TokenOperation>)
      requires next.env == env
      modifies next
      ensures Sifted(next.View(), kept) == Sift(env, old(next.View()), pending, AsToken)
    {
      hide ApplyToken;
      kept := [];
      for i := 0 to |pending|
        invariant next.env == env
        invariant var rest := Sift(env, next.View(), pending[i..], AsToken);
                  Sift(env, old(next.View()), pending, AsToken) == Sifted(rest.state, kept + rest.kept)
      {
        assert pending[i..][1..] == pending[i + 1..];
        var outcome := next.ApplyTokenOperation(pending[i], env.tokenOpId(pending[i].unsigned));
        if outcome.Done? {
          kept := kept + [pending[i]];
        }
      }
    }

    method KeepSwaps(next: State, pending: seq<MnaSwapOperation>) returns (kept: seq<MnaSwapOperation>)
      requires next.env == env
      modifies next
      ensures Sifted(next.View(), kept) == Sift(env, old(next.View()), pending, AsSwap)
    {
      hide ApplySwap;
      kept := [];
      for i := 0 to |pending|
        invariant next.env == env
        invariant var rest := Sift(env, next.View(), pending[i..], AsSwap);
                  Sift(env, old(next.View()), pending, AsSwap) == Sifted(rest.state, kept + rest.kept)
      {
        assert pending[i..][1..] == pending[i + 1..];
        var outcome := next.ApplyMnaSwap(pending[i]);
        if outcome.Done? {
          kept := kept + [pending[i]];
        }
      }
    }

    method KeepReserves(next: State, pending: seq<MnaReserveOperation>) returns (kept: seq<MnaReserveOperation>)
      requires next.env == env
      modifies next
      ensures Sifted(next.View(), kept) == Sift(env, old(next.View()), pending, AsReserve)
    {
      hide ApplyReserve;
      kept := [];
      for i := 0 to |pending|
        invariant next.env == env
        invariant var rest := Sift(env, next.View(), pending[i..], AsReserve);
                  Sift(env, old(next.View()), pending, AsReserve) == Sifted(rest.state, kept + rest.kept)
      {
        assert pending[i..][1..] == pending[i + 1..];
        var outcome := next.ApplyMnaReserveOperation(pending[i]);
        if outcome.Done? {
          kept := kept + [pending[i]];
        }
      }
    }

    method KeepPrograms(next: State, pending: seq<ProgramOperation>, height: nat) returns (kept: seq<ProgramOperation>)
      requires next.env == env
      modifies next
      ensures Sifted(next.View(), kept) == Sift(env, old(next.View()), pending, AsProgram(height))
    {
      hide ApplyProgram;
      kept := [];
      for i := 0 to |pending|
        invariant next.env == env
        invariant var rest := Sift(env, next.View(), pending[i..], AsProgram(height));
                  Sift(env, old(next.View()), pending, AsProgram(height)) == Sifted(rest.state, kept + rest.kept)
      {
        assert pending[i..][1..] == pending[i + 1..];
        var outcome := next.ApplyProgramOperation(pending[i], height);
        if outcome.Done? {
          kept := kept + [pending[i]];
        }
      }
    }

    /** The six loops of block building, one pool after the other. */
    method BuildFrom(next: State, p: Pools, height: nat) returns (built: Built)
      requires next.env == env
      modifies next
      ensures built == Build(env, old(next.View()), Unstored(env, store.View(), p.transactions), p, height)
    {
      hide Sift, Unstored;
      var a := KeepTransfers(next, p.transactions);
      var b := KeepBridges(next, p.assets);
      var c := KeepTokens(next, p.tokens);
      var d := KeepSwaps(next, p.swaps);
      var e := KeepReserves(next, p.reserves);
      var f := KeepPrograms(next, p.programs, height);
      return Built(next.View(), a, b, c, d, e, f);
    }

    method ProduceBlock(proposer: Option<PublicKey>, timestamp: nat) returns (r: Result<Block, NodeError>)
      requires Valid()
      modifies this, store, mempool
      ensures Acted(View(), r) == Produce(env, old(View()), proposer, timestamp)
    {
      hide Build, Unstored, BlockIds, Extended;
      if proposer.Some? && !IsExpectedProposer(View(), proposer.value) {
        return Err(NotProposer);
      }
      var ids := mempool.ids;
      var drained := mempool.Drain();
      var pending := Pools(drained, ids, assets, tokens, swaps, reserves, programs);
      assets, tokens, swaps, reserves, programs := [], [], [], [], [];
      var next := new State(env, state);
      var built := BuildFrom(next, pending, latest.header.height + 1);
      var block := CommitBlock(built, proposer, timestamp);
      return Ok(block);
    }

    method CommitBlock(built: Built, proposer: Option<PublicKey>, timestamp: nat) returns (block: Block)
      requires Valid()
      modifies this`state, this`latest, store
      ensures block == Seal(env, old(View()), built, proposer, timestamp)
      ensures View() == Extended(env, old(View()), block, built.state)
    {
      hide Ids;
      block := Unsealed(env, View(), built, proposer, timestamp);
      if proposer.Some? {
        var signature := env.signHeader(proposer.value, block.header);
        block := block.(header := block.header.(proposerSignature := Some(signature)));
      }
      store.Commit(env.blockId(block.header), block, built.state);
      state := built.state;
      latest := block;
    }

    method Faucet(a: Address, amount: u128, timestamp: nat) returns (r: Result<Block, NodeError>)
      requires Valid()
      modifies this, store
      ensures Acted(View(), r) == Nodes.Faucet(env, old(View()), a, amount, timestamp)
    {
      hide Seal, Contains;
      if !IsDevnet(genesis.chainId) {
        return Err(FaucetDisabled);
      }
      var next := new State(env, state);
      var outcome := next.CreditDevnet(a, amount);
      if outcome.Failed? {
        return Err(OfState(outcome.error));
      }
      var block := CommitBlock(Built(next.View(), [], [], [], [], [], []), None, timestamp);
      return Ok(block);
    }

    /* ---------- importing ---------- */

    method ImportBlock(b: Block) returns (r: Result<Hash, NodeError>)
      requires Valid()
      modifies this, store, mempool
      ensures Acted(View(), r) == Import(env, old(View()), b)
    {
      hide Replayed, CheckHeader, Ids, WithoutIds, Indexed;
      var hash := env.blockId(b.header);
      if b.header.version != 1 {
        return Err(InvalidBlock(UnsupportedBlockVersion));
      }
      if hash in store.blocks {
        return Ok(hash);
      }
      var header := CheckHeader(env, View(), b.header);
      if header.Err? {
        return Err(InvalidBlock(header.error));
      }
      var next := new State(env, state);
      var replay := ReplayAll(next, b);
      if replay.Err? {
        return Err(FaultOf(replay.error));
      }
      var ids := replay.value;
      if env.merkleRoot(ids) != b.header.transactionRoot {
        return Err(InvalidBlock(TransactionRootMismatch));
      }
      if env.stateRoot(next.View()) != b.header.stateRoot {
        return Err(InvalidBlock(StateRootMismatch));
      }
      store.Commit(hash, b, next.View());
      mempool.RemoveIds(ids);
      state := next.View();
      latest := b;
      return Ok(hash);
    }

    /** The six replay loops; the identities come back in the order of the transaction root. */
    method ReplayAll(next: State, b: Block) returns (r: Result<seq<Hash>, Refusal>)
      requires next.env == env
      modifies next
      ensures var replay := ReplayBlock(env, old(next.View()), b);
              if replay.Ok? then replay.value == next.View() && r == Ok(BlockIds(env, b)) else r == Err(replay.error)
    {
      hide Replayed, Ids;
      var i1 :- ReplayTransfers(next, b.transactions);
      var i2 :- ReplayBridges(next, b.assetOperations);
      var i3 :- ReplayTokens(next, b.tokenOperations);
      var i4 :- ReplaySwaps(next, b.swapOperations);
      var i5 :- ReplayReserves(next, b.reserveOperations);
      var i6 :- ReplayPrograms(next, b.programOperations, b.header.height);
      return Ok(i1 + i2 + i3 + i4 + i5 + i6);
    }

    method ReplayTransfers(next: State, items: seq<Transaction>) returns (r: Result<seq<Hash>, Refusal>)
      requires next.env == env
      modifies next
      ensures var replay := Replayed(env, old(next.View()), items, AsTransfer);
              if replay.Ok? then replay.value == next.View() && r == Ok(Ids(env, items, AsTransfer))
              else r == Err(replay.error)
    {
      hide ApplyTransaction;
      var ids := [];
      for i := 0 to |items|
        invariant next.env == env
        invariant Replayed(env, next.View(), items[i..], AsTransfer)
                  == Replayed(env, old(next.View()), items, AsTransfer)
        invariant |ids| == i && forall j :: 0 <= j < i ==> ids[j] == OpId(env, AsTransfer(items[j]))
      {
        assert items[i..][1..] == items[i + 1..];
        var outcome := next.ApplyTransaction(items[i]);
        if outcome.Failed? {
          return Err(Rejected(outcome.error));
        }
        if !outcome.applied {
          return Err(Duplicate);
        }
        ids := ids + [env.txId(items[i].unsigned)];
      }
      assert ids == Ids(env, items, AsTransfer);
      return Ok(ids);
    }

    method ReplayBridges(next: State, items: seq<AssetOperation>) returns (r: Result<seq<Hash>, Refusal>)
      requires next.env == env
      modifies next
      ensures var replay := Replayed(env, old(next.View()), items, AsBridge);
              if replay.Ok? then replay.value == next.View() && r == Ok(Ids(env, items, AsBridge))
              else r == Err(replay.error)
    {
      hide ApplyAssetOperation;
      var ids := [];
      for i := 0 to |items|
        invariant next.env == env
        invariant Replayed(env, next.View(), items[i..], AsBridge) == Replayed(env, old(next.View()), items, AsBridge)
        invariant |ids| == i && forall j :: 0 <= j < i ==> ids[j] == OpId(env, AsBridge(items[j]))
      {
        assert items[i..][1..] == items[i + 1..];
        var outcome := next.ApplyAssetOperation(items[i]);
        if outcome.Failed? {
          return Err(Rejected(outcome.error));
        }
        if !outcome.applied {
          return Err(Duplicate);
        }
        ids := ids + [items[i].operationId];
      }
      assert ids == Ids(env, items, AsBridge);
      return Ok(ids);
    }

    method ReplayTokens(next: State, items: seq<TokenOperation>) returns (r: Result<seq<Hash>, Refusal>)
      requires next.env == env
      modifies next
      ensures var replay := Replayed(env, old(next.View()), items, AsToken);
              if replay.Ok? then replay.value == next.View() && r == Ok(Ids(env, items, AsToken))
              else r == Err(replay.error)
    {
      hide ApplyToken;
      var ids := [];
      for i := 0 to |items|
        invariant next.env == env
        invariant Replayed(env, next.View(), items[i..], AsToken) == Replayed(env, old(next.View()), items, AsToken)
        invariant |ids| == i && forall j :: 0 <= j < i ==> ids[j] == OpId(env, AsToken(items[j]))
      {
        assert items[i..][1..] == items[i + 1..];
        var outcome := next.ApplyTokenOperation(items[i], env.tokenOpId(items[i].unsigned));
        if outcome.Failed? {
          return Err(Rejected(outcome.error));
        }
        if !outcome.applied {
          return Err(Duplicate);
        }
        ids := ids + [env.tokenOpId(items[i].unsigned)];
      }
      assert ids == Ids(env, items, AsToken);
      return Ok(ids);
    }

    method ReplaySwaps(next: State, items: seq<MnaSwapOperation>) returns (r: Result<seq<Hash>, Refusal>)
      requires next.env == env
      modifies next
      ensures var replay := Replayed(env, old(next.View()), items, AsSwap);
              if replay.Ok? then replay.value == next.View() && r == Ok(Ids(env, items, AsSwap))
              else r == Err(replay.error)
    {
      hide ApplySwap;
      var ids := [];
      for i := 0 to |items|
        invariant next.env == env
        invariant Replayed(env, next.View(), items[i..], AsSwap) == Replayed(env, old(next.View()), items, AsSwap)
        invariant |ids| == i && forall j :: 0 <= j < i ==> ids[j] == OpId(env, AsSwap(items[j]))
      {
        assert items[i..][1..] == items[i + 1..];
        var outcome := next.ApplyMnaSwap(items[i]);
        if outcome.Failed? {
          return Err(Rejected(outcome.error));
        }
        if !outcome.applied {
          return Err(Duplicate);
        }
        ids := ids + [env.swapId(items[i].unsigned)];
      }
      assert ids == Ids(env, items, AsSwap);
      return Ok(ids);
    }

    method ReplayReserves(next: State, items: seq<MnaReserveOperation>) returns (r: Result<seq<Hash>, Refusal>)
      requires next.env == env
      modifies next
      ensures var replay := Replayed(env, old(next.View()), items, AsReserve);
              if replay.Ok? then replay.value == next.View() && r == Ok(Ids(env, items, AsReserve))
              else r == Err(replay.error)
    {
      hide ApplyReserve;
      var ids := [];
      for i := 0 to |items|
        invariant next.env == env
        invariant Replayed(env, next.View(), items[i..], AsReserve) == Replayed(env, old(next.View()), items, AsReserve)
        invariant |ids| == i && forall j :: 0 <= j < i ==> ids[j] == OpId(env, AsReserve(items[j]))
      {
        assert items[i..][1..] == items[i + 1..];
        var outcome := next.ApplyMnaReserveOperation(items[i]);
        if outcome.Failed? {
          return Err(Rejected(outcome.error));
        }
        if !outcome.applied {
          return Err(Duplicate);
        }
        ids := ids + [env.reserveId(items[i])];
      }
      assert ids == Ids(env, items, AsReserve);
      return Ok(ids);
    }

    method ReplayPrograms(next: State, items: seq<ProgramOperation>, height: nat)
        returns (r: Result<seq<Hash>, Refusal>)
      requires next.env == env
      modifies next
      ensures var replay := Replayed(env, old(next.View()), items, AsProgram(height));
              if replay.Ok? then replay.value == next.View() && r == Ok(Ids(env, items, AsProgram(height)))
              else r == Err(replay.error)
    {
      hide ApplyProgram;
      var ids := [];
      for i := 0 to |items|
        invariant next.env == env
        invariant Replayed(env, next.View(), items[i..], AsProgram(height))
                  == Replayed(env, old(next.View()), items, AsProgram(height))
        invariant |ids| == i && forall j :: 0 <= j < i ==> ids[j] == OpId(env, AsProgram(height)(items[j]))
      {
        assert items[i..][1..] == items[i + 1..];
        var outcome := next.ApplyProgramOperation(items[i], height);
        if outcome.Failed? {
          return Err(Rejected(outcome.error));
        }
        if !outcome.applied {
          return Err(Duplicate);
        }
        ids := ids + [env.programOpId(items[i])];
      }
      assert ids == Ids(env, items, AsProgram(height));
      return Ok(ids);
    }

    /* ---------- finality ---------- */

    method FinalizeVotes(ballot: Ballot) returns (r: Result<nat, NodeError>)
      requires Valid()
      modifies store
      ensures Acted(View(), r) == Nodes.FinalizeVotes(env, old(View()), ballot)
    {
      hide IsQuorum, ValidateVote;
      var members := KeysOf(genesis.validators);
      var hash := env.blockId(latest.header);
      if ballot.height != latest.header.height {
        return Err(InvalidBlock(VoteHeightNotLatest));
      }
      if ballot.blockHash != hash {
        return Err(InvalidBlock(VotesForAnotherBlock));
      }
      if !IsQuorum(|members|, |ballot.votes|) {
        return Err(NoConsensus);
      }
      var todo := ballot.votes.Keys;
      while todo != {}
        invariant todo <= ballot.votes.Keys
        invariant forall k | k in ballot.votes.Keys - todo ::
                    ValidateVote(env, members, ballot.votes[k], genesis.chainId, ballot.height, ballot.round, hash).Ok?
        decreases |todo|
      {
        var k :| k in todo;
        var valid := ValidateVote(env, members, ballot.votes[k], genesis.chainId, ballot.height, ballot.round, hash);
        if valid.Err? {
          return Err(NoConsensus);
        }
        todo := todo - {k};
      }
      var marked := store.MarkFinalized(ballot.height, hash);
      if marked.Err? {
        return Err(OfStorage(marked.error));
      }
      return Ok(ballot.height);
    }
  }

  /** Opening a node: check or write the genesis, then load and check the latest block and state. */
  method OpenNode(env: Env, genesis: GenesisConfig, store: Store) returns (r: Result<Node, NodeError>)
    requires store.env == env
    modifies store
    ensures var after := Open(env, genesis, old(store.View()));
            && store.View() == after.disk
            && (after.result.Err? ==> r == Err(after.result.error))
            && (after.result.Ok? ==> r.Ok? && r.value.Valid() && r.value.env == env && r.value.store == store
                                      && r.value.View() == after.result.value)
  {
    hide Ensured;
    var first := FromGenesis(genesis);
    if first.Err? {
      return Err(InvalidGenesis);
    }
    var ensured := store.EnsureGenesis(genesis.chainId, GenesisBlock(env, genesis, first.value), first.value);
    if ensured.Err? {
      return Err(OfStorage(ensured.error));
    }
    if store.meta.latestHash.None? || store.meta.latestHash.value !in store.blocks || store.state.None? {
      return Err(OfStorage(Missing));
    }
    var latest, state := store.blocks[store.meta.latestHash.value], store.state.value;
    if latest.header.chainId != genesis.chainId {
      return Err(CorruptChain);
    }
    if env.stateRoot(state) != latest.header.stateRoot {
      return Err(CorruptChain);
    }
    var node := new Node(env, genesis, store, state, latest);
    return Ok(node);
  }
}
