/** What stays pending when another node's block settles it. The mempool drops what the block carries; the other pools
    do not look at the block. */
module Pending {
  import opened Wrappers
  import opened Core
  import opened Ledger
  import opened Replay
  import opened Storage
  import opened Consensus
  import opened Nodes
  import opened BlockReplay
  import opened Chain
  import opened TransactionIndex

  /* ---------- the mempool ---------- */

  /** No pending transaction is on the chain, and there are no more than the limit. */
  ghost predicate MempoolFresh(env: Env, n: NodeView) {
    && |n.pools.transactions| <= MAX_MEMPOOL_TRANSACTIONS
    && forall i :: 0 <= i < |n.pools.transactions| ==> env.txId(n.pools.transactions[i].unsigned) !in n.disk.transactions
  }

  /** Exactly the transactions that are not gone are left, in their order. */
  lemma {:induction false} OthersStay(env: Env, txs: seq<Transaction>, gone: seq<Hash>)
    ensures var rest := WithoutIds(env, txs, gone);
            && |rest| <= |txs|
            && (forall tx :: tx in rest <==> tx in txs && env.txId(tx.unsigned) !in gone)
            && ((forall tx | tx in txs :: env.txId(tx.unsigned) !in gone) ==> rest == txs)
    decreases |txs|
  {
    if txs != [] {
      OthersStay(env, txs[1..], gone);
      assert forall tx :: tx in txs <==> tx == txs[0] || tx in txs[1..];
    }
  }

  lemma BlockIdsHasTransfers(env: Env, b: Block, id: Hash)
    requires Among(env, b.transactions, id)
    ensures id in BlockIds(env, b)
  {
    var i :| 0 <= i < |b.transactions| && env.txId(b.transactions[i].unsigned) == id;
    assert BlockIds(env, b)[i] == id;
  }

  lemma ImportKeepsMempool(env: Env, n: NodeView, b: Block)
    requires MempoolFresh(env, n)
    ensures MempoolFresh(env, Import(env, n, b).view)
  {
    hide ReplayBlock, CheckHeader, CheckRoots, BlockIds, Indexed, WithoutIds;
    var m := Import(env, n, b).view;
    if m != n {
      OthersStay(env, n.pools.transactions, BlockIds(env, b));
      IndexedExactly(env, n.disk.transactions, b.transactions);
      forall tx | tx in m.pools.transactions ensures env.txId(tx.unsigned) !in m.disk.transactions {
        if Among(env, b.transactions, env.txId(tx.unsigned)) {
          BlockIdsHasTransfers(env, b, env.txId(tx.unsigned));
        }
      }
    }
  }

  lemma StepKeepsMempool(env: Env, n: NodeView, e: Event)
    requires ChainOk(env, n) && MempoolFresh(env, n)
    ensures MempoolFresh(env, NodeStep(env, n, e))
  {
    hide Build, BlockIds, Unstored, ReplayBlock, Ensured, Loaded, Import, Open, ChainOk, ValidateTransaction, CreditDevnet,
         IsQuorum, VotesValid, ValidateToken, ValidateSwap, ValidateReserve, ProgramEffect, Ids;
    match e
    case Submitted(op) =>
      if op.Transfer? { TransferIdentity(env, n.state, op.tx); }
    case Produced(proposer, timestamp) =>
    case Fauceted(a, amount, timestamp) =>
    case Imported(b) => ImportKeepsMempool(env, n, b);
    case Counted(ballot) =>
    case Restarted => RestartLosesOnlyPools(env, n);
  }

  lemma {:induction false} AllUnstored(env: Env, d: Disk, txs: seq<Transaction>)
    requires forall i :: 0 <= i < |txs| ==> env.txId(txs[i].unsigned) !in d.transactions
    ensures Unstored(env, d, txs) == txs
    decreases |txs|
  {
    if txs != [] {
      AllUnstored(env, d, txs[1..]);
    }
  }

  /** Over every run the mempool holds nothing that the chain carries, so production tries all of it. */
  lemma {:induction false} RunsKeepMempool(env: Env, n: NodeView, events: seq<Event>)
    requires HeadersHashApart(env) && ChainOk(env, n) && MempoolFresh(env, n)
    ensures var m := NodeRun(env, n, events);
            MempoolFresh(env, m) && Unstored(env, m.disk, m.pools.transactions) == m.pools.transactions
    decreases |events|
  {
    hide NodeStep, ChainOk;
    if events != [] {
      StepKeepsChain(env, n, events[0]);
      StepKeepsMempool(env, n, events[0]);
      hide MempoolFresh;
      RunsKeepMempool(env, NodeStep(env, n, events[0]), events[1..]);
    } else {
      AllUnstored(env, n.disk, n.pools.transactions);
    }
  }

  /* ---------- the pools that a block does not touch ---------- */

  /** The operation is pending in one of the pools that are guarded by the identities the ledger remembers. */
  predicate Waits(p: Pools, op: Op) {
    match op
    case Bridge(o) => o in p.assets
    case Token(o) => o in p.tokens
    case Program(o, _) => o in p.programs
    case _ => false
  }

  /** The ledger remembers nothing that is pending. */
  ghost predicate NothingSettled(env: Env, n: NodeView) {
    forall op | Waits(n.pools, op) :: !Seen(env, n.state, op)
  }

  predicate CarriesIdentity(env: Env, ops: seq<Op>, op: Op) {
    exists i :: 0 <= i < |ops| && SameIdentity(env, ops[i], op)
  }

  /** The block settles something that is pending here. */
  ghost predicate SettlesPending(env: Env, n: NodeView, b: Block) {
    exists op :: Waits(n.pools, op) && CarriesIdentity(env, BlockOps(b), op)
  }

  lemma AppliedIsSeen(env: Env, s: Snapshot, x: Op, op: Op)
    requires Apply(env, s, x).outcome == Done(true) && SameIdentity(env, x, op) && !op.Swap? && !op.Reserve?
    ensures Seen(env, Apply(env, s, x).state, op)
  {
    hide ApplySwap, ApplyReserve, ApplyTransaction, CanonicalKey, IsSupportedUsdc, TokenAction, ProgramAction,
         ValidateToken, ChargeTokenFee, AuthorisedFee;
  }

  lemma IdentityTail(env: Env, ops: seq<Op>, op: Op)
    requires ops != []
    ensures CarriesIdentity(env, ops, op) <==> SameIdentity(env, ops[0], op) || CarriesIdentity(env, ops[1..], op)
  {
    hide SameIdentity;
    if CarriesIdentity(env, ops[1..], op) {
      var i :| 0 <= i < |ops[1..]| && SameIdentity(env, ops[1..][i], op);
      assert SameIdentity(env, ops[i + 1], op);
    }
    if CarriesIdentity(env, ops, op) && !SameIdentity(env, ops[0], op) {
      var i :| 0 <= i < |ops| && SameIdentity(env, ops[i], op);
      assert SameIdentity(env, ops[1..][i - 1], op);
    }
  }

  /** Replaying a block makes the ledger remember what the block carries, and nothing more. */
  lemma {:induction false} ReplaySettles(env: Env, s: Snapshot, ops: seq<Op>, op: Op)
    requires Replayed(env, s, ops, Self).Ok? && !op.Swap? && !op.Reserve?
    ensures Seen(env, Replayed(env, s, ops, Self).value, op) <==> Seen(env, s, op) || CarriesIdentity(env, ops, op)
    decreases |ops|
  {
    hide Apply, Seen, SameIdentity;
    if ops != [] {
      hide CarriesIdentity;
      var s' := Apply(env, s, ops[0]).state;
      StepMarks(env, s, ops[0], op);
      IdentityTail(env, ops, op);
      if SameIdentity(env, ops[0], op) { AppliedIsSeen(env, s, ops[0], op); }
      ReplaySettles(env, s', ops[1..], op);
    }
  }

  /** What the ledger remembers cannot be replayed again. */
  lemma {:induction false} SeenIsRefused(env: Env, s: Snapshot, ops: seq<Op>, op: Op)
    requires Seen(env, s, op) && op in ops
    ensures Replayed(env, s, ops, Self).Err?
    decreases |ops|
  {
    hide Apply, Seen, SameIdentity;
    SeenIsNotApplied(env, s, op);
    if op != ops[0] {
      StepMarks(env, s, ops[0], op);
      SeenIsRefused(env, Apply(env, s, ops[0]).state, ops[1..], op);
    }
  }

  /** Only an imported block can settle what is pending, and it does exactly if it carries the identity. */
  lemma StepSettlesExactly(env: Env, n: NodeView, e: Event)
    requires ChainOk(env, n) && NothingSettled(env, n)
    ensures NothingSettled(env, NodeStep(env, n, e))
            <==> !(e.Imported? && NodeStep(env, n, e) != n && SettlesPending(env, n, e.block))
  {
    hide ChainOk, NothingSettled, SettlesPending, Import;
    match e
    case Submitted(op) => SubmitSettlesNothing(env, n, op);
    case Produced(proposer, timestamp) => EmptiedIsFresh(env, n, proposer, timestamp);
    case Fauceted(a, amount, timestamp) => FaucetSettlesNothing(env, n, a, amount, timestamp);
    case Imported(b) => ImportSettlesExactly(env, n, b);
    case Counted(ballot) => CountingSettlesNothing(env, n, ballot);
    case Restarted =>
      RestartLosesOnlyPools(env, n);
      EmptyIsFresh(env, n.(pools := EMPTY_POOLS));
  }

  lemma SubmitSettlesNothing(env: Env, n: NodeView, op: Op)
    requires NothingSettled(env, n)
    ensures NothingSettled(env, Submit(env, n, op).view)
  {
    hide ValidateTransaction, ValidateToken, ValidateSwap, ValidateReserve, ProgramEffect, Ids;
    SubmitKeepsChain(env, n, op);
    var m := Submit(env, n, op).view;
    forall x | Waits(m.pools, x) ensures !Seen(env, m.state, x) {
      if !Waits(n.pools, x) {
        assert OpId(env, x) == OpId(env, op);
      }
    }
  }

  lemma EmptyIsFresh(env: Env, n: NodeView)
    requires n.pools == EMPTY_POOLS
    ensures NothingSettled(env, n)
  {
  }

  lemma EmptiedIsFresh(env: Env, n: NodeView, proposer: Option<PublicKey>, timestamp: nat)
    requires NothingSettled(env, n)
    ensures NothingSettled(env, Produce(env, n, proposer, timestamp).view)
  {
    hide Build, BlockIds, Unstored, IsExpectedProposer, Seal;
  }

  lemma FaucetSettlesNothing(env: Env, n: NodeView, a: Address, amount: u128, timestamp: nat)
    requires NothingSettled(env, n)
    ensures NothingSettled(env, Faucet(env, n, a, amount, timestamp).view)
  {
    hide Seal, IsDevnet, Waits;
  }

  lemma CountingSettlesNothing(env: Env, n: NodeView, ballot: Ballot)
    requires NothingSettled(env, n)
    ensures NothingSettled(env, FinalizeVotes(env, n, ballot).view)
  {
    hide IsQuorum, VotesValid, Seen, Waits;
  }

  lemma ImportSettlesExactly(env: Env, n: NodeView, b: Block)
    requires NothingSettled(env, n)
    ensures NothingSettled(env, Import(env, n, b).view)
            <==> !(Import(env, n, b).view != n && SettlesPending(env, n, b))
  {
    hide ReplayBlock, CheckHeader, CheckRoots, BlockIds, Indexed, WithoutIds, Replayed, BlockOps, Seen, CarriesIdentity;
    var m := Import(env, n, b).view;
    ReplayBlockIsOnePass(env, n.state, b);
    if m != n {
      assert forall op :: Waits(m.pools, op) <==> Waits(n.pools, op);
      forall op | Waits(n.pools, op)
        ensures Seen(env, m.state, op) <==> CarriesIdentity(env, BlockOps(b), op)
      {
        ReplaySettles(env, n.state, BlockOps(b), op);
      }
    }
  }

  /* ---------- what a settled operation does to the next block ---------- */

  /** What a bridge operation is checked for before its identity is. */
  predicate ReachesDuplicateCheck(op: Op) {
    op.Bridge? ==>
      op.asset.version == 1 && op.asset.amount != 0 && op.asset.assetId.namespace != "worldstreet"
      && op.asset.assetId.contract.Some?
  }

  predicate Guarded(op: Op) {
    op.Bridge? || op.Token? || op.Program?
  }

  lemma SettledIsDuplicate(env: Env, s: Snapshot, op: Op)
    requires Guarded(op) && ReachesDuplicateCheck(op) && Seen(env, s, op)
    ensures Apply(env, s, op) == Step(s, Done(false))
  {
  }

  /** Production counts a duplicate as accepted and keeps it. */
  lemma {:induction false} SettledIsKept(env: Env, s: Snapshot, ops: seq<Op>, op: Op)
    requires Guarded(op) && ReachesDuplicateCheck(op) && Seen(env, s, op) && op in ops
    ensures op in Sift(env, s, ops, Self).kept
    decreases |ops|
  {
    hide Apply, Seen, SameIdentity, ReachesDuplicateCheck;
    if op == ops[0] {
      SettledIsDuplicate(env, s, op);
    } else {
      StepMarks(env, s, ops[0], op);
      SettledIsKept(env, Apply(env, s, ops[0]).state, ops[1..], op);
    }
  }

  /** The operation as the next block would carry it. */
  function NextForm(n: NodeView, op: Op): Op {
    if op.Program? then Program(op.program, n.latest.header.height + 1) else op
  }

  lemma TaggedHas<T>(items: seq<T>, op: T -> Op, item: T)
    requires item in items
    ensures op(item) in Tagged(items, op)
  {
    var i :| 0 <= i < |items| && items[i] == item;
    assert Tagged(items, op)[i] == op(item);
  }

  lemma WaitingIsTried(env: Env, n: NodeView, op: Op)
    requires Waits(n.pools, op)
    ensures NextForm(n, op) in PendingOps(env, n)
  {
    hide Tagged, Unstored;
    match op
    case Bridge(o) => TaggedHas(n.pools.assets, AsBridge, o);
    case Token(o) => TaggedHas(n.pools.tokens, AsToken, o);
    case Program(o, _) => TaggedHas(n.pools.programs, AsProgram(n.latest.header.height + 1), o);
  }

  lemma ProducedIsSifted(env: Env, n: NodeView, proposer: Option<PublicKey>, timestamp: nat)
    requires Produce(env, n, proposer, timestamp).result.Ok?
    ensures BlockOps(Produce(env, n, proposer, timestamp).result.value) == Sift(env, n.state, PendingOps(env, n), Self).kept
  {
    hide Sift, Tagged, BlockIds, Extended;
    var txs, height := Unstored(env, n.disk, n.pools.transactions), n.latest.header.height + 1;
    BuildIsOnePass(env, n.state, txs, n.pools, height);
    assert BlockOps(Produce(env, n, proposer, timestamp).result.value)
        == BuiltOps(Build(env, n.state, txs, n.pools, height), height);
  }

  /** A pending operation that the ledger already remembers goes into the next block again, and no node that remembers
      it accepts that block: the producer is alone with it. */
  lemma SettledIsCarriedAgain(env: Env, n: NodeView, op: Op, proposer: Option<PublicKey>, timestamp: nat)
    requires Waits(n.pools, op) && Seen(env, n.state, op) && ReachesDuplicateCheck(op)
    requires Produce(env, n, proposer, timestamp).result.Ok?
    ensures var b := Produce(env, n, proposer, timestamp).result.value;
            && NextForm(n, op) in BlockOps(b)
            && forall r: NodeView | Seen(env, r.state, op) && env.blockId(b.header) !in r.disk.blocks ::
                 Import(env, r, b).result.Err? && Import(env, r, b).view == r
  {
    hide BlockIds, Extended, Sift, Tagged, Unstored, Apply;
    var b := Produce(env, n, proposer, timestamp).result.value;
    WaitingIsTried(env, n, op);
    SettledIsKept(env, n.state, PendingOps(env, n), NextForm(n, op));
    ProducedIsSifted(env, n, proposer, timestamp);
    hide Produce, Sift, PendingOps, BlockOps;
    forall r: NodeView | Seen(env, r.state, op) && env.blockId(b.header) !in r.disk.blocks
      ensures Import(env, r, b).result.Err? && Import(env, r, b).view == r
    {
      SeenIsRefused(env, r.state, BlockOps(b), NextForm(n, op));
      ReplayBlockIsOnePass(env, r.state, b);
      RefusedReplay(env, r, b);
    }
  }

  lemma RefusedReplay(env: Env, r: NodeView, b: Block)
    requires ReplayBlock(env, r.state, b).Err? && env.blockId(b.header) !in r.disk.blocks
    ensures Import(env, r, b).result.Err? && Import(env, r, b).view == r
  {
    hide ReplayBlock, CheckHeader;
  }

  /** An operation submitted to two nodes: once the second has imported the first one's block, its own next block is
      refused by every node that holds the first. */
  lemma CarriedElsewhereForks(env: Env, n: NodeView, r: NodeView, b: Block, op: Op, proposer: Option<PublicKey>,
      timestamp: nat)
    requires HeadersHashApart(env) && ChainOk(env, n) && ChainOk(env, r)
    requires Waits(n.pools, op) && CarriesIdentity(env, BlockOps(b), op) && ReachesDuplicateCheck(op)
    requires var m := Import(env, n, b).view; m != n && r.latest == m.latest && r.state == m.state
    ensures var p := Produce(env, Import(env, n, b).view, proposer, timestamp);
            p.result.Ok? ==> Import(env, r, p.result.value).result.Err? && Import(env, r, p.result.value).view == r
  {
    hide Linked, Marks, StartsAt, BlockOps, CarriesIdentity, Seen, ReachesDuplicateCheck;
    var m := Import(env, n, b).view;
    ImportedStillWaits(env, n, b, op);
    hide Import, Waits;
    var p := Produce(env, m, proposer, timestamp);
    if p.result.Ok? {
      ProducedFollows(env, m, proposer, timestamp);
      SettledIsCarriedAgain(env, m, op, proposer, timestamp);
      NextBlockIsNew(env, r.disk, r.latest.header.height, p.result.value.header);
    }
  }

  lemma ImportedStillWaits(env: Env, n: NodeView, b: Block, op: Op)
    requires Waits(n.pools, op) && CarriesIdentity(env, BlockOps(b), op) && Import(env, n, b).view != n
    ensures Waits(Import(env, n, b).view.pools, op) && Seen(env, Import(env, n, b).view.state, op)
  {
    hide ReplayBlock, CheckHeader, CheckRoots, BlockIds, Indexed, WithoutIds, Replayed, BlockOps, Seen, CarriesIdentity;
    ReplayBlockIsOnePass(env, n.state, b);
    ReplaySettles(env, n.state, BlockOps(b), op);
  }
}
