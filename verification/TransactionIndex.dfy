/** The store knows every transaction its blocks carry, so a node never puts one into a second block. */
module TransactionIndex {
  import opened Wrappers
  import opened Core
  import opened Ledger
  import opened Genesis
  import opened Replay
  import opened Storage
  import opened Consensus
  import opened Nodes
  import opened BlockReplay
  import opened Chain
  import opened Schedule

  /** The block has a transaction of this identity at this place. */
  predicate CarriesAt(env: Env, b: Block, i: nat, id: Hash) {
    i < |b.transactions| && env.txId(b.transactions[i].unsigned) == id
  }

  predicate Carries(env: Env, b: Block, id: Hash) {
    exists i :: 0 <= i < |b.transactions| && CarriesAt(env, b, i, id)
  }

  predicate CarriedIn(env: Env, d: Disk, id: Hash) {
    exists x | x in d.blocks :: Carries(env, d.blocks[x], id)
  }

  /** A transaction is in the index exactly if some stored block carries it, under its own identity. */
  ghost predicate IndexTrue(env: Env, d: Disk) {
    && (forall id :: id in d.transactions <==> CarriedIn(env, d, id))
    && forall id | id in d.transactions :: env.txId(d.transactions[id].unsigned) == id
  }

  predicate Among(env: Env, txs: seq<Transaction>, id: Hash) {
    exists i :: 0 <= i < |txs| && env.txId(txs[i].unsigned) == id
  }

  lemma AmongTail(env: Env, txs: seq<Transaction>, id: Hash)
    requires txs != []
    ensures Among(env, txs, id) <==> env.txId(txs[0].unsigned) == id || Among(env, txs[1..], id)
  {
    if Among(env, txs[1..], id) {
      var i :| 0 <= i < |txs[1..]| && env.txId(txs[1..][i].unsigned) == id;
      assert env.txId(txs[i + 1].unsigned) == id;
    }
    if Among(env, txs, id) && env.txId(txs[0].unsigned) != id {
      var i :| 0 <= i < |txs| && env.txId(txs[i].unsigned) == id;
      assert env.txId(txs[1..][i - 1].unsigned) == id;
    }
  }

  lemma {:induction false} IndexedExactly(env: Env, m: map<Hash, Transaction>, txs: seq<Transaction>)
    ensures var r := Indexed(env, m, txs);
            && (forall id :: id in r <==> id in m || Among(env, txs, id))
            && forall id | id in r :: env.txId(r[id].unsigned) == id || (id in m && r[id] == m[id])
    decreases |txs|
  {
    if txs != [] {
      var m' := m[env.txId(txs[0].unsigned) := txs[0]];
      IndexedExactly(env, m', txs[1..]);
      var r := Indexed(env, m', txs[1..]);
      assert r == Indexed(env, m, txs);
      hide Indexed, Among;
      forall id ensures id in r <==> id in m || Among(env, txs, id) {
        AmongTail(env, txs, id);
        assert id in r <==> id in m' || Among(env, txs[1..], id);
      }
    } else {
      assert forall id :: !Among(env, txs, id);
    }
  }

  lemma CommittedIsIndexed(env: Env, d: Disk, hash: Hash, b: Block, s: Snapshot)
    requires IndexTrue(env, d) && hash !in d.blocks
    ensures IndexTrue(env, Committed(env, d, hash, b, s))
  {
    IndexedExactly(env, d.transactions, b.transactions);
    hide Indexed;
    var d' := Committed(env, d, hash, b, s);
    forall id ensures id in d'.transactions <==> CarriedIn(env, d', id) {
      if id in d.transactions {
        var x :| x in d.blocks && Carries(env, d.blocks[x], id);
        assert x in d'.blocks && Carries(env, d'.blocks[x], id);
      } else if Among(env, b.transactions, id) {
        var i :| 0 <= i < |b.transactions| && env.txId(b.transactions[i].unsigned) == id;
        assert CarriesAt(env, d'.blocks[hash], i, id);
      } else {
        assert !Carries(env, b, id);
        assert forall x | x in d.blocks :: !Carries(env, d.blocks[x], id);
      }
    }
  }

  lemma ExtendedIsIndexed(env: Env, n: NodeView, b: Block, s: Snapshot)
    requires HeadersHashApart(env) && ChainOk(env, n) && IndexTrue(env, n.disk) && Follows(env, n, b, s)
    ensures IndexTrue(env, Extended(env, n, b, s).disk)
  {
    hide IndexTrue, Marks, StartsAt;
    NextBlockIsNew(env, n.disk, n.latest.header.height, b.header);
    CommittedIsIndexed(env, n.disk, env.blockId(b.header), b, s);
  }

  lemma PoolsDoNotMatter(env: Env, n: NodeView, b: Block, s: Snapshot)
    ensures ChainOk(env, n) ==> ChainOk(env, n.(pools := EMPTY_POOLS))
    ensures Follows(env, n, b, s) ==> Follows(env, n.(pools := EMPTY_POOLS), b, s)
  {
    hide Linked, StartsAt;
  }

  lemma StepKeepsIndex(env: Env, n: NodeView, e: Event)
    requires HeadersHashApart(env) && ChainOk(env, n) && IndexTrue(env, n.disk)
    ensures IndexTrue(env, NodeStep(env, n, e).disk)
  {
    hide IndexTrue, Produce, Import, Faucet, Submit, FinalizeVotes, Open, Extended, Follows, ChainOk;
    match e
    case Submitted(op) => SubmitKeepsChain(env, n, op);
    case Produced(proposer, timestamp) =>
      ProducedFollows(env, n, proposer, timestamp);
      RefusedProduction(env, n, proposer, timestamp);
      var p := Produce(env, n, proposer, timestamp);
      if p.result.Ok? {
        PoolsDoNotMatter(env, n, p.result.value, p.view.state);
        ExtendedIsIndexed(env, n.(pools := EMPTY_POOLS), p.result.value, p.view.state);
      }
    case Fauceted(a, amount, timestamp) =>
      FaucetFollows(env, n, a, amount, timestamp);
      var p := Faucet(env, n, a, amount, timestamp);
      if p.result.Ok? { ExtendedIsIndexed(env, n, p.result.value, p.view.state); }
    case Imported(b) =>
      ImportedFollows(env, n, b);
      var i := Import(env, n, b);
      if i.result.Ok? && env.blockId(b.header) !in n.disk.blocks { ExtendedIsIndexed(env, n, b, i.view.state); }
    case Counted(ballot) => CountedKeepsIndex(env, n, ballot);
    case Restarted => RestartLosesOnlyPools(env, n);
  }

  lemma CountedKeepsIndex(env: Env, n: NodeView, ballot: Ballot)
    requires IndexTrue(env, n.disk)
    ensures IndexTrue(env, FinalizeVotes(env, n, ballot).view.disk)
  {
    CountedKeepsBlocks(env, n, ballot);
    hide FinalizeVotes, Carries;
    var d, d' := n.disk, FinalizeVotes(env, n, ballot).view.disk;
    forall id ensures CarriedIn(env, d', id) <==> CarriedIn(env, d, id) {
    }
  }

  /** Over every run of a node from an empty store the index holds exactly the transactions of the stored blocks. */
  lemma {:induction false} RunsKeepIndex(env: Env, n: NodeView, events: seq<Event>)
    requires HeadersHashApart(env) && ChainOk(env, n) && IndexTrue(env, n.disk)
    ensures IndexTrue(env, NodeRun(env, n, events).disk)
    decreases |events|
  {
    hide NodeStep, IndexTrue;
    if events != [] {
      StepKeepsChain(env, n, events[0]);
      StepKeepsIndex(env, n, events[0]);
      hide ChainOk;
      RunsKeepIndex(env, NodeStep(env, n, events[0]), events[1..]);
    }
  }

  lemma FreshIndex(env: Env, genesis: GenesisConfig)
    requires Open(env, genesis, EMPTY_DISK).result.Ok?
    ensures var n := Open(env, genesis, EMPTY_DISK).result.value; n.disk.transactions == map[] && IndexTrue(env, n.disk)
  {
    hide InitialState;
    var first := GenesisBlock(env, genesis, InitialState(genesis).value);
    var n := Open(env, genesis, EMPTY_DISK).result.value;
    assert n.disk.blocks == map[env.blockId(first.header) := first] && n.disk.transactions == map[];
  }

  /* ---------- what a producer takes from its mempool ---------- */

  /** Exactly the transactions that no stored block carries are tried, in their order. */
  lemma {:induction false} UnstoredExactly(env: Env, d: Disk, txs: seq<Transaction>)
    ensures var r := Unstored(env, d, txs);
            && (forall tx :: tx in r <==> tx in txs && env.txId(tx.unsigned) !in d.transactions)
            && (AllDifferent(Ids(env, txs, AsTransfer)) ==> AllDifferent(Ids(env, r, AsTransfer)))
    decreases |txs|
  {
    hide AllDifferent, Ids;
    if txs != [] {
      var rest := Unstored(env, d, txs[1..]);
      UnstoredExactly(env, d, txs[1..]);
      TailDiffers(env, txs);
      if env.txId(txs[0].unsigned) !in d.transactions && AllDifferent(Ids(env, txs, AsTransfer)) {
        HeadDiffers(env, txs, rest);
      }
    }
  }

  lemma TailDiffers(env: Env, txs: seq<Transaction>)
    requires txs != []
    ensures AllDifferent(Ids(env, txs, AsTransfer)) ==> AllDifferent(Ids(env, txs[1..], AsTransfer))
  {
    assert forall i | 0 <= i < |txs| - 1 :: Ids(env, txs[1..], AsTransfer)[i] == Ids(env, txs, AsTransfer)[i + 1];
  }

  lemma HeadDiffers(env: Env, txs: seq<Transaction>, rest: seq<Transaction>)
    requires txs != [] && AllDifferent(Ids(env, txs, AsTransfer)) && AllDifferent(Ids(env, rest, AsTransfer))
    requires forall tx | tx in rest :: tx in txs[1..]
    ensures AllDifferent(Ids(env, [txs[0]] + rest, AsTransfer))
  {
    var ids, all := Ids(env, [txs[0]] + rest, AsTransfer), Ids(env, txs, AsTransfer);
    forall i, j | 0 <= i < j < |ids| ensures ids[i] != ids[j] {
      if i == 0 {
        assert rest[j - 1] in txs[1..];
        var k :| 0 <= k < |txs[1..]| && txs[1..][k] == rest[j - 1];
        assert all[k + 1] == ids[j] && all[0] == ids[0];
      } else {
        assert ids[i] == Ids(env, rest, AsTransfer)[i - 1] && ids[j] == Ids(env, rest, AsTransfer)[j - 1];
      }
    }
  }

  lemma {:induction false} KeptIsTried(env: Env, s: Snapshot, txs: seq<Transaction>)
    ensures var kept := Sift(env, s, txs, AsTransfer).kept;
            && (forall tx | tx in kept :: tx in txs)
            && (AllDifferent(Ids(env, txs, AsTransfer)) ==> AllDifferent(Ids(env, kept, AsTransfer)))
    decreases |txs|
  {
    hide Apply;
    if txs != [] {
      var step := Apply(env, s, AsTransfer(txs[0]));
      KeptIsTried(env, step.state, txs[1..]);
      TailDiffers(env, txs);
      if step.outcome.Done? && AllDifferent(Ids(env, txs, AsTransfer)) {
        HeadDiffers(env, txs, Sift(env, step.state, txs[1..], AsTransfer).kept);
      }
    }
  }

  /** No identity twice in one block. */
  predicate CarriesOnce(env: Env, b: Block) {
    AllDifferent(Ids(env, b.transactions, AsTransfer))
  }

  /** A produced block carries no transaction that a stored block carries, and none twice. */
  lemma ProducedIsFresh(env: Env, n: NodeView, proposer: Option<PublicKey>, timestamp: nat)
    requires IndexTrue(env, n.disk) && PoolsDistinct(env, n.pools)
    ensures var p := Produce(env, n, proposer, timestamp);
            p.result.Ok? ==>
              && CarriesOnce(env, p.result.value)
              && forall id :: Carries(env, p.result.value, id) ==> !CarriedIn(env, n.disk, id)
  {
    hide CarriedIn, Sift, Unstored, BlockIds, AllDifferent, Ids, Extended;
    var txs := Unstored(env, n.disk, n.pools.transactions);
    UnstoredExactly(env, n.disk, n.pools.transactions);
    KeptIsTried(env, n.state, txs);
    var p := Produce(env, n, proposer, timestamp);
    if p.result.Ok? {
      assert p.result.value.transactions == Sift(env, n.state, txs, AsTransfer).kept;
      forall id | Carries(env, p.result.value, id) ensures !CarriedIn(env, n.disk, id) {
        var i :| 0 <= i < |p.result.value.transactions| && CarriesAt(env, p.result.value, i, id);
        assert p.result.value.transactions[i] in txs;
      }
    }
  }

  /** Whatever a node did since it started on an empty store, what it produces next is new to its chain, faucet transfers
      included; and what the chain carries is refused when it is submitted again. */
  lemma NothingCarriedAgain(env: Env, genesis: GenesisConfig, events: seq<Event>, proposer: Option<PublicKey>,
      timestamp: nat, tx: Transaction)
    requires HeadersHashApart(env) && Open(env, genesis, EMPTY_DISK).result.Ok?
    ensures var n := NodeRun(env, Open(env, genesis, EMPTY_DISK).result.value, events);
            var p := Produce(env, n, proposer, timestamp);
            && IndexTrue(env, n.disk)
            && (p.result.Ok? ==>
                  CarriesOnce(env, p.result.value)
                  && forall id :: Carries(env, p.result.value, id) ==> !CarriedIn(env, n.disk, id))
            && (CarriedIn(env, n.disk, env.txId(tx.unsigned)) ==>
                  SubmitTransaction(env, n, tx) == Acted(n, Err(DuplicateTransaction)))
  {
    hide NodeRun, Produce, CarriedIn, ChainOk, PoolsDistinct, Carries, CarriesOnce;
    var start := Open(env, genesis, EMPTY_DISK).result.value;
    FreshStart(env, genesis);
    FreshIndex(env, genesis);
    StartsWithEmptyPools(env, genesis);
    hide Open;
    RunsKeepIndex(env, start, events);
    RunsKeepPools(env, start, events);
    ProducedIsFresh(env, NodeRun(env, start, events), proposer, timestamp);
  }

  lemma StartsWithEmptyPools(env: Env, genesis: GenesisConfig)
    requires Open(env, genesis, EMPTY_DISK).result.Ok?
    ensures PoolsDistinct(env, Open(env, genesis, EMPTY_DISK).result.value.pools)
  {
    hide InitialState, Loaded, Ensured;
    LoadedPools(env, genesis, Open(env, genesis, EMPTY_DISK).disk);
    EmptyPoolsDistinct(env);
  }

  /* ---------- chains that one node produced ---------- */

  /** Every identity has one place on the chain. */
  ghost predicate PlacedOnce(env: Env, d: Disk) {
    && (forall x | x in d.blocks :: CarriesOnce(env, d.blocks[x]))
    && forall x, y, id | x in d.blocks && y in d.blocks && Carries(env, d.blocks[x], id)
          && Carries(env, d.blocks[y], id) :: x == y
  }

  predicate OwnBlocksOnly(events: seq<Event>) {
    forall i :: 0 <= i < |events| ==> !events[i].Imported?
  }

  lemma FreshBlockIsPlaced(env: Env, d: Disk, hash: Hash, b: Block, s: Snapshot)
    requires PlacedOnce(env, d) && hash !in d.blocks && CarriesOnce(env, b)
    requires forall id :: Carries(env, b, id) ==> !CarriedIn(env, d, id)
    ensures PlacedOnce(env, Committed(env, d, hash, b, s))
  {
    hide Indexed, Carries, CarriesOnce;
  }

  lemma PlacedBySameBlocks(env: Env, d: Disk, d': Disk)
    requires PlacedOnce(env, d) && d'.blocks == d.blocks
    ensures PlacedOnce(env, d')
  {
    hide Carries, CarriesOnce;
  }

  lemma OwnStepPlaces(env: Env, n: NodeView, e: Event)
    requires HeadersHashApart(env) && ChainOk(env, n) && IndexTrue(env, n.disk) && PoolsDistinct(env, n.pools)
    requires PlacedOnce(env, n.disk) && !e.Imported?
    ensures PlacedOnce(env, NodeStep(env, n, e).disk)
  {
    hide IndexTrue, Produce, Faucet, Submit, FinalizeVotes, Open, PoolsDistinct, PlacedOnce, Carries, CarriesOnce,
         CarriedIn, Marks, StartsAt, BlockIds, Linked;
    match e
    case Submitted(op) => SubmitKeepsChain(env, n, op);
    case Produced(proposer, timestamp) =>
      ProducedFollows(env, n, proposer, timestamp);
      RefusedProduction(env, n, proposer, timestamp);
      ProducedIsFresh(env, n, proposer, timestamp);
      var p := Produce(env, n, proposer, timestamp);
      if p.result.Ok? {
        NextBlockIsNew(env, n.disk, n.latest.header.height, p.result.value.header);
        FreshBlockIsPlaced(env, n.disk, env.blockId(p.result.value.header), p.result.value, p.view.state);
      }
    case Fauceted(a, amount, timestamp) =>
      FaucetFollows(env, n, a, amount, timestamp);
      var p := Faucet(env, n, a, amount, timestamp);
      if p.result.Ok? {
        FaucetCarriesNothing(env, n, a, amount, timestamp);
        NextBlockIsNew(env, n.disk, n.latest.header.height, p.result.value.header);
        FreshBlockIsPlaced(env, n.disk, env.blockId(p.result.value.header), p.result.value, p.view.state);
      }
    case Imported(b) =>
    case Counted(ballot) =>
      CountedKeepsBlocks(env, n, ballot);
      PlacedBySameBlocks(env, n.disk, FinalizeVotes(env, n, ballot).view.disk);
    case Restarted => RestartLosesOnlyPools(env, n);
  }

  lemma FaucetCarriesNothing(env: Env, n: NodeView, a: Address, amount: u128, timestamp: nat)
    ensures var p := Faucet(env, n, a, amount, timestamp);
            p.result.Ok? ==> CarriesOnce(env, p.result.value) && forall id :: !Carries(env, p.result.value, id)
  {
    hide BlockIds, IsDevnet, Extended;
    var p := Faucet(env, n, a, amount, timestamp);
    if p.result.Ok? {
      assert p.result.value.transactions == [];
    }
  }

  /** On a chain that one node produced, submissions, faucet blocks, votes and restarts in between, no transaction has two
      places, so none is applied twice. */
  lemma {:induction false} OwnChainsPlaceOnce(env: Env, n: NodeView, events: seq<Event>)
    requires HeadersHashApart(env) && ChainOk(env, n) && IndexTrue(env, n.disk) && PoolsDistinct(env, n.pools)
    requires PlacedOnce(env, n.disk) && OwnBlocksOnly(events)
    ensures PlacedOnce(env, NodeRun(env, n, events).disk)
    decreases |events|
  {
    hide NodeStep, IndexTrue, PlacedOnce, PoolsDistinct;
    if events != [] {
      StepKeepsChain(env, n, events[0]);
      StepKeepsIndex(env, n, events[0]);
      StepKeepsPools(env, n, events[0]);
      OwnStepPlaces(env, n, events[0]);
      hide ChainOk;
      assert OwnBlocksOnly(events[1..]);
      OwnChainsPlaceOnce(env, NodeStep(env, n, events[0]), events[1..]);
    }
  }
}
