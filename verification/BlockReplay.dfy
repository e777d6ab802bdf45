/** A produced block, replayed by an importer in the same state. */
module BlockReplay {
  import opened Wrappers
  import opened Core
  import opened Ledger
  import opened Replay
  import opened Consensus
  import opened Nodes

  function Tagged<T>(items: seq<T>, op: T -> Op): (ops: seq<Op>)
    ensures |ops| == |items| && forall i :: 0 <= i < |items| ==> ops[i] == op(items[i])
  {
    if items == [] then [] else [op(items[0])] + Tagged(items[1..], op)
  }

  /** The operations of a block in the order an importer applies them. */
  function BlockOps(b: Block): seq<Op> {
    Tagged(b.transactions, AsTransfer) + Tagged(b.assetOperations, AsBridge) + Tagged(b.tokenOperations, AsToken)
    + Tagged(b.swapOperations, AsSwap) + Tagged(b.reserveOperations, AsReserve)
    + Tagged(b.programOperations, AsProgram(b.header.height))
  }

  /** The pending operations in the order a producer tries them. */
  function PendingOps(env: Env, n: NodeView): seq<Op> {
    PoolOps(Unstored(env, n.disk, n.pools.transactions), n.pools, n.latest.header.height + 1)
  }

  function PoolOps(txs: seq<Transaction>, p: Pools, height: nat): seq<Op> {
    Tagged(txs, AsTransfer) + Tagged(p.assets, AsBridge) + Tagged(p.tokens, AsToken)
    + Tagged(p.swaps, AsSwap) + Tagged(p.reserves, AsReserve) + Tagged(p.programs, AsProgram(height))
  }

  function BuiltOps(b: Built, height: nat): seq<Op> {
    Tagged(b.transactions, AsTransfer) + Tagged(b.assets, AsBridge) + Tagged(b.tokens, AsToken)
    + Tagged(b.swaps, AsSwap) + Tagged(b.reserves, AsReserve) + Tagged(b.programs, AsProgram(height))
  }

  /* ---------- six loops are one pass over the tagged operations ---------- */

  lemma {:induction false} SiftTagged<T>(env: Env, s: Snapshot, items: seq<T>, op: T -> Op)
    ensures var r := Sift(env, s, items, op);
            Sift(env, s, Tagged(items, op), Self) == Sifted(r.state, Tagged(r.kept, op))
    decreases |items|
  {
    hide Apply;
    if items != [] {
      var step := Apply(env, s, op(items[0]));
      SiftTagged(env, step.state, items[1..], op);
      var kept := Sift(env, step.state, items[1..], op).kept;
      assert ([items[0]] + kept)[1..] == kept;
      assert Tagged(items, op)[1..] == Tagged(items[1..], op);
    }
  }

  lemma {:induction false} SiftAppend(env: Env, s: Snapshot, a: seq<Op>, b: seq<Op>)
    ensures var first := Sift(env, s, a, Self);
            var second := Sift(env, first.state, b, Self);
            Sift(env, s, a + b, Self) == Sifted(second.state, first.kept + second.kept)
    decreases |a|
  {
    hide Apply;
    if a == [] {
      assert a + b == b;
    } else {
      assert (a + b)[1..] == a[1..] + b;
      SiftAppend(env, Apply(env, s, a[0]).state, a[1..], b);
    }
  }

  lemma BuildIsOnePass(env: Env, s: Snapshot, txs: seq<Transaction>, p: Pools, height: nat)
    ensures var built := Build(env, s, txs, p, height);
            Sift(env, s, PoolOps(txs, p, height), Self) == Sifted(built.state, BuiltOps(built, height))
  {
    hide Sift, Tagged;
    var a := Sift(env, s, txs, AsTransfer);
    var b := Sift(env, a.state, p.assets, AsBridge);
    var c := Sift(env, b.state, p.tokens, AsToken);
    var d := Sift(env, c.state, p.swaps, AsSwap);
    var e := Sift(env, d.state, p.reserves, AsReserve);
    SiftTagged(env, s, txs, AsTransfer);
    SiftTagged(env, a.state, p.assets, AsBridge);
    SiftTagged(env, b.state, p.tokens, AsToken);
    SiftTagged(env, c.state, p.swaps, AsSwap);
    SiftTagged(env, d.state, p.reserves, AsReserve);
    SiftTagged(env, e.state, p.programs, AsProgram(height));
    var ops := Tagged(txs, AsTransfer);
    SiftAppend(env, s, ops, Tagged(p.assets, AsBridge));
    ops := ops + Tagged(p.assets, AsBridge);
    SiftAppend(env, s, ops, Tagged(p.tokens, AsToken));
    ops := ops + Tagged(p.tokens, AsToken);
    SiftAppend(env, s, ops, Tagged(p.swaps, AsSwap));
    ops := ops + Tagged(p.swaps, AsSwap);
    SiftAppend(env, s, ops, Tagged(p.reserves, AsReserve));
    ops := ops + Tagged(p.reserves, AsReserve);
    SiftAppend(env, s, ops, Tagged(p.programs, AsProgram(height)));
  }

  lemma {:induction false} ReplayTagged<T>(env: Env, s: Snapshot, items: seq<T>, op: T -> Op)
    ensures Replayed(env, s, Tagged(items, op), Self) == Replayed(env, s, items, op)
    decreases |items|
  {
    hide Apply;
    if items != [] {
      assert Tagged(items, op)[1..] == Tagged(items[1..], op);
      ReplayTagged(env, Apply(env, s, op(items[0])).state, items[1..], op);
    }
  }

  lemma {:induction false} ReplayAppend(env: Env, s: Snapshot, a: seq<Op>, b: seq<Op>)
    ensures var first := Replayed(env, s, a, Self);
            Replayed(env, s, a + b, Self) == if first.Ok? then Replayed(env, first.value, b, Self) else first
    decreases |a|
  {
    hide Apply;
    if a == [] {
      assert a + b == b;
    } else {
      assert (a + b)[1..] == a[1..] + b;
      ReplayAppend(env, Apply(env, s, a[0]).state, a[1..], b);
    }
  }

  lemma Then<T>(env: Env, s: Snapshot, ops: seq<Op>, items: seq<T>, op: T -> Op)
    ensures var first := Replayed(env, s, ops, Self);
            Replayed(env, s, ops + Tagged(items, op), Self) == if first.Ok? then Replayed(env, first.value, items, op)
              else first
  {
    ReplayAppend(env, s, ops, Tagged(items, op));
    if Replayed(env, s, ops, Self).Ok? {
      ReplayTagged(env, Replayed(env, s, ops, Self).value, items, op);
    }
  }

  lemma ReplayBlockIsOnePass(env: Env, s: Snapshot, b: Block)
    ensures ReplayBlock(env, s, b) == Replayed(env, s, BlockOps(b), Self)
  {
    hide Replayed, Tagged;
    var ops := Tagged(b.transactions, AsTransfer);
    ReplayTagged(env, s, b.transactions, AsTransfer);
    Then(env, s, ops, b.assetOperations, AsBridge);
    ops := ops + Tagged(b.assetOperations, AsBridge);
    Then(env, s, ops, b.tokenOperations, AsToken);
    ops := ops + Tagged(b.tokenOperations, AsToken);
    Then(env, s, ops, b.swapOperations, AsSwap);
    ops := ops + Tagged(b.swapOperations, AsSwap);
    Then(env, s, ops, b.reserveOperations, AsReserve);
    ops := ops + Tagged(b.reserveOperations, AsReserve);
    Then(env, s, ops, b.programOperations, AsProgram(b.header.height));
  }

  /* ---------- pending identities ---------- */

  predicate AllDifferent(ids: seq<Hash>) {
    forall i, j :: 0 <= i < j < |ids| ==> ids[i] != ids[j]
  }

  /** What submission guarantees about the pools. */
  ghost predicate PoolsDistinct(env: Env, p: Pools) {
    && AllDifferent(Ids(env, p.transactions, AsTransfer))
    && p.ids == (set id | id in Ids(env, p.transactions, AsTransfer))
    && AllDifferent(Ids(env, p.assets, AsBridge))
    && AllDifferent(Ids(env, p.tokens, AsToken))
    && AllDifferent(Ids(env, p.swaps, AsSwap))
    && AllDifferent(Ids(env, p.reserves, AsReserve))
    && AllDifferent(Ids(env, p.programs, AsProgram(0)))
  }

  function Family(op: Op): nat {
    match op
    case Transfer(_) => 0
    case Bridge(_) => 1
    case Token(_) => 2
    case Swap(_) => 3
    case Reserve(_) => 4
    case Program(_, _) => 5
    case Credit(_, _) => 6
  }

  lemma SameIdentityMeans(env: Env, x: Op, y: Op)
    ensures SameIdentity(env, x, y) ==> Family(x) == Family(y) && OpId(env, x) == OpId(env, y)
    ensures x.Transfer? ==> !SameIdentity(env, x, y)
  {
  }

  lemma DistinctPool<T>(env: Env, items: seq<T>, op: T -> Op)
    requires AllDifferent(Ids(env, items, op)) || forall x :: op(x).Transfer?
    ensures DistinctIdentities(env, Tagged(items, op))
  {
    hide SameIdentity, OpId;
    var ops := Tagged(items, op);
    forall i, j | 0 <= i < j < |ops| ensures !SameIdentity(env, ops[i], ops[j]) {
      SameIdentityMeans(env, ops[i], ops[j]);
      assert Ids(env, items, op)[i] == OpId(env, ops[i]) && Ids(env, items, op)[j] == OpId(env, ops[j]);
    }
  }

  predicate UpTo(ops: seq<Op>, family: nat) {
    forall i :: 0 <= i < |ops| ==> Family(ops[i]) <= family
  }

  lemma DistinctAppend<T>(env: Env, a: seq<Op>, items: seq<T>, op: T -> Op, family: nat)
    requires DistinctIdentities(env, a) && UpTo(a, family)
    requires AllDifferent(Ids(env, items, op)) && forall x :: Family(op(x)) == family + 1
    ensures DistinctIdentities(env, a + Tagged(items, op)) && UpTo(a + Tagged(items, op), family + 1)
  {
    hide SameIdentity, OpId;
    DistinctPool(env, items, op);
    var ops := a + Tagged(items, op);
    forall i | 0 <= i < |ops| ensures Family(ops[i]) <= family + 1 {
      if i >= |a| {
        assert ops[i] == op(items[i - |a|]);
      }
    }
    forall i, j | 0 <= i < j < |ops| ensures !SameIdentity(env, ops[i], ops[j]) {
      SameIdentityMeans(env, ops[i], ops[j]);
      if i < |a| <= j {
        assert ops[j] == op(items[j - |a|]);
      }
    }
  }

  lemma ProgramIdsIgnoreHeight(env: Env, items: seq<ProgramOperation>, height: nat)
    ensures Ids(env, items, AsProgram(height)) == Ids(env, items, AsProgram(0))
  {
  }

  lemma PendingDistinct(env: Env, txs: seq<Transaction>, p: Pools, height: nat)
    requires PoolsDistinct(env, p)
    ensures DistinctIdentities(env, PoolOps(txs, p, height))
  {
    hide Ids, Tagged, AllDifferent, SameIdentity;
    ProgramIdsIgnoreHeight(env, p.programs, height);
    var ops := Tagged(txs, AsTransfer);
    DistinctPool(env, txs, AsTransfer);
    assert UpTo(ops, 0);
    DistinctAppend(env, ops, p.assets, AsBridge, 0);
    ops := ops + Tagged(p.assets, AsBridge);
    DistinctAppend(env, ops, p.tokens, AsToken, 1);
    ops := ops + Tagged(p.tokens, AsToken);
    DistinctAppend(env, ops, p.swaps, AsSwap, 2);
    ops := ops + Tagged(p.swaps, AsSwap);
    DistinctAppend(env, ops, p.reserves, AsReserve, 3);
    ops := ops + Tagged(p.reserves, AsReserve);
    DistinctAppend(env, ops, p.programs, AsProgram(height), 4);
  }

  /* ---------- the theorem for blocks ---------- */

  /** A produced block replays to exactly the producer's state if and only if its pending operations were clean. */
  lemma ProducedBlockReplaysExactly(env: Env, n: NodeView, proposer: Option<PublicKey>, timestamp: nat)
    requires Metered(env) && PoolsDistinct(env, n.pools)
    ensures var p := Produce(env, n, proposer, timestamp);
            p.result.Ok? ==>
              (ReplayBlock(env, n.state, p.result.value) == Ok(p.view.state)
               <==> Clean(env, n.state, PendingOps(env, n)))
  {
    hide Sift, Tagged, Clean, Replayed, PoolsDistinct;
    var p := Produce(env, n, proposer, timestamp);
    if p.result.Ok? {
      var txs, height := Unstored(env, n.disk, n.pools.transactions), n.latest.header.height + 1;
      var built := Build(env, n.state, txs, n.pools, height);
      BuildIsOnePass(env, n.state, txs, n.pools, height);
      PendingDistinct(env, txs, n.pools, height);
      ReplayIsExact(env, n.state, PendingOps(env, n));
      ReplayBlockIsOnePass(env, n.state, p.result.value);
      assert BlockOps(p.result.value) == BuiltOps(built, height);
    }
  }

  /** A signature made over a header without one verifies. */
  ghost predicate HeaderSignaturesVerify(env: Env) {
    forall k, h: BlockHeader | h.proposer == Some(k) && h.proposerSignature.None? ::
      env.headerSigned(h.(proposerSignature := Some(env.signHeader(k, h))))
  }

  /** The proposals an importer accepts: by the scheduled validator, or unsigned where the chain allows that. */
  predicate ProposalAllowed(n: NodeView, proposer: Option<PublicKey>) {
    if proposer.Some? then n.genesis.validators != [] else n.genesis.validators == [] || IsDevnet(n.genesis.chainId)
  }

  lemma ProducedHeaderPasses(env: Env, n: NodeView, proposer: Option<PublicKey>, timestamp: nat)
    requires HeaderSignaturesVerify(env)
    ensures var p := Produce(env, n, proposer, timestamp);
            p.result.Ok? ==>
              p.result.value.header.version == 1
              && (CheckHeader(env, n, p.result.value.header).Ok? <==> ProposalAllowed(n, proposer))
  {
    hide Build, BlockIds, Contains, Sift;
    var p := Produce(env, n, proposer, timestamp);
    if p.result.Ok? && proposer.Some? && n.genesis.validators != [] {
      var next := ProposerForHeight(n.genesis.validators, n.latest.header.height + 1, 0).value;
      assert next in n.genesis.validators;
    }
  }

  lemma ProducedRootsPass(env: Env, n: NodeView, proposer: Option<PublicKey>, timestamp: nat)
    ensures var p := Produce(env, n, proposer, timestamp);
            p.result.Ok? ==> CheckRoots(env, p.result.value, p.view.state).Ok?
  {
    hide Build, Ids, Sift;
  }

  /** Any node in the producer's state that does not hold the block yet accepts it and ends in exactly the
      producer's state if and only if the proposal is allowed and the pending operations were clean. */
  lemma ImportReproduces(env: Env, n: NodeView, m: NodeView, proposer: Option<PublicKey>, timestamp: nat)
    requires Metered(env) && HeaderSignaturesVerify(env) && PoolsDistinct(env, n.pools)
    requires m.genesis == n.genesis && m.state == n.state && m.latest == n.latest
    requires Produce(env, n, proposer, timestamp).result.Ok?
    requires env.blockId(Produce(env, n, proposer, timestamp).result.value.header) !in m.disk.blocks
    ensures var p := Produce(env, n, proposer, timestamp);
            var i := Import(env, m, p.result.value);
            && (i.result.Ok? && i.view.state == p.view.state
                <==> ProposalAllowed(n, proposer) && Clean(env, n.state, PendingOps(env, n)))
            && (i.result.Ok? ==> i.result.value == env.blockId(p.result.value.header) && i.view.latest == p.view.latest)
  {
    hide Build, BlockIds, Contains, Sift, Clean, PendingOps, ReplayBlock, PoolsDistinct, CheckProposer, CheckRoots,
         Seal, HeaderSignaturesVerify;
    var p := Produce(env, n, proposer, timestamp);
    ProducedHeaderPasses(env, n, proposer, timestamp);
    ProducedRootsPass(env, n, proposer, timestamp);
    ProducedBlockReplaysExactly(env, n, proposer, timestamp);
    assert CheckHeader(env, m, p.result.value.header) == CheckHeader(env, n, p.result.value.header);
  }
}
