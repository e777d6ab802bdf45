/** What a producer puts into a block: every pending operation that the ledger accepts at its turn, and no other. */
module Inclusion {
  import opened Wrappers
  import opened Core
  import opened Ledger
  import opened Replay
  import opened Storage
  import opened Consensus
  import opened Nodes
  import opened BlockReplay
  import opened Chain
  import opened NativeAccounting
  import opened Frames
  import opened Genesis
  import Consent
  import opened Schedule

  /** The ledger accepts the i-th of some operations, tried one after the other. */
  predicate AcceptedAt(env: Env, s: Snapshot, ops: seq<Op>, i: nat)
    requires i < |ops|
  {
    Apply(env, Consent.Through(env, s, ops[..i]), ops[i]).outcome.Done?
  }

  function Shifted(places: seq<nat>): (r: seq<nat>)
    ensures |r| == |places| && forall j :: 0 <= j < |r| ==> r[j] == places[j] + 1
  {
    if places == [] then [] else [places[0] + 1] + Shifted(places[1..])
  }

  /** Where the accepted ones stand. */
  function Places(env: Env, s: Snapshot, ops: seq<Op>): seq<nat>
    decreases |ops|
  {
    if ops == [] then []
    else
      var step := Apply(env, s, ops[0]);
      var rest := Shifted(Places(env, step.state, ops[1..]));
      if step.outcome.Done? then [0] + rest else rest
  }

  ghost predicate Ascending(places: seq<nat>, limit: nat) {
    && (forall j :: 0 <= j < |places| ==> places[j] < limit)
    && forall j, k :: 0 <= j < k < |places| ==> places[j] < places[k]
  }

  lemma AcceptedLater(env: Env, s: Snapshot, ops: seq<Op>, i: nat)
    requires 0 < i < |ops|
    ensures AcceptedAt(env, s, ops, i) <==> AcceptedAt(env, Apply(env, s, ops[0]).state, ops[1..], i - 1)
  {
    hide Apply;
    assert ops[..i][1..] == ops[1..][..i - 1];
  }

  lemma ShiftAscends(places: seq<nat>, limit: nat)
    requires Ascending(places, limit)
    ensures Ascending(Shifted(places), limit + 1) && Ascending([0] + Shifted(places), limit + 1)
  {
  }

  lemma {:induction false} PlacesAscend(env: Env, s: Snapshot, ops: seq<Op>)
    ensures Ascending(Places(env, s, ops), |ops|)
    decreases |ops|
  {
    if ops != [] {
      hide Apply, Ascending, Shifted;
      var step := Apply(env, s, ops[0]);
      PlacesAscend(env, step.state, ops[1..]);
      ShiftAscends(Places(env, step.state, ops[1..]), |ops| - 1);
    }
  }

  ghost predicate Picks(places: seq<nat>, ops: seq<Op>, kept: seq<Op>) {
    |kept| == |places| && forall j :: 0 <= j < |places| ==> places[j] < |ops| && kept[j] == ops[places[j]]
  }

  lemma PickLater(places: seq<nat>, ops: seq<Op>, kept: seq<Op>)
    requires ops != [] && Picks(places, ops[1..], kept)
    ensures Picks(Shifted(places), ops, kept) && Picks([0] + Shifted(places), ops, [ops[0]] + kept)
  {
    assert forall j :: 0 <= j < |places| ==> ops[1..][places[j]] == ops[places[j] + 1];
  }

  lemma {:induction false} PlacesPick(env: Env, s: Snapshot, ops: seq<Op>)
    ensures Picks(Places(env, s, ops), ops, Sift(env, s, ops, Self).kept)
    ensures Sift(env, s, ops, Self).state == Consent.Through(env, s, ops)
    decreases |ops|
  {
    if ops != [] {
      hide Apply, Shifted, Picks;
      var step, rest := Apply(env, s, ops[0]), ops[1..];
      PlacesPick(env, step.state, rest);
      PickLater(Places(env, step.state, rest), ops, Sift(env, step.state, rest, Self).kept);
    }
  }

  lemma InShifted(places: seq<nat>, i: nat)
    ensures i in Shifted(places) <==> i > 0 && i - 1 in places
  {
    if i in Shifted(places) {
      var j :| 0 <= j < |places| && Shifted(places)[j] == i;
      assert places[j] == i - 1;
    }
    if i > 0 && i - 1 in places {
      var j :| 0 <= j < |places| && places[j] == i - 1;
      assert Shifted(places)[j] == i;
    }
  }

  lemma {:induction false} PlacesAccepted(env: Env, s: Snapshot, ops: seq<Op>, i: nat)
    requires i < |ops|
    ensures i in Places(env, s, ops) <==> AcceptedAt(env, s, ops, i)
    decreases |ops|
  {
    hide Apply, Shifted;
    var step := Apply(env, s, ops[0]);
    var tail := Places(env, step.state, ops[1..]);
    InShifted(tail, i);
    if i > 0 {
      hide AcceptedAt;
      AcceptedLater(env, s, ops, i);
      PlacesAccepted(env, step.state, ops[1..], i - 1);
    } else {
      assert ops[..0] == [];
    }
  }

  /** A produced block carries exactly the pending operations that the ledger accepts at their turn, in their order, and
      the producer ends in the state after all of them, accepted or not. */
  lemma CarriesAcceptedExactly(env: Env, n: NodeView, proposer: Option<PublicKey>, timestamp: nat)
    ensures var p, ops := Produce(env, n, proposer, timestamp), PendingOps(env, n);
            p.result.Ok? ==>
              var carried, places := BlockOps(p.result.value), Places(env, n.state, ops);
              && Ascending(places, |ops|) && |carried| == |places|
              && (forall j :: 0 <= j < |places| ==> carried[j] == ops[places[j]])
              && (forall i :: 0 <= i < |ops| ==> (i in places <==> AcceptedAt(env, n.state, ops, i)))
              && p.view.state == Consent.Through(env, n.state, ops) && p.view.pools == EMPTY_POOLS
              && p.view.latest == p.result.value
  {
    hide Sift, Tagged, Places, AcceptedAt, Ascending, Consent.Through, BlockIds, Committed;
    var p := Produce(env, n, proposer, timestamp);
    if p.result.Ok? {
      var txs, height := Unstored(env, n.disk, n.pools.transactions), n.latest.header.height + 1;
      var built := Build(env, n.state, txs, n.pools, height);
      BuildIsOnePass(env, n.state, txs, n.pools, height);
      PlacesAscend(env, n.state, PendingOps(env, n));
      PlacesPick(env, n.state, PendingOps(env, n));
      forall i: nat | i < |PendingOps(env, n)|
        ensures i in Places(env, n.state, PendingOps(env, n)) <==> AcceptedAt(env, n.state, PendingOps(env, n), i)
      {
        PlacesAccepted(env, n.state, PendingOps(env, n), i);
      }
      assert BlockOps(p.result.value) == BuiltOps(built, height);
    }
  }

  /* ---------- submission ---------- */

  /** The operation as a block at that height would carry it. */
  function AtHeight(op: Op, height: nat): Op {
    if op.Program? then Program(op.program, height) else op
  }

  /** A pool with the operation at the end of its family. */
  function WithPending(p: Pools, op: Op, ids: set<Hash>): Pools {
    match op
    case Transfer(tx) => p.(transactions := p.transactions + [tx], ids := ids)
    case Bridge(o) => p.(assets := p.assets + [o])
    case Token(o) => p.(tokens := p.tokens + [o])
    case Swap(o) => p.(swaps := p.swaps + [o])
    case Reserve(o) => p.(reserves := p.reserves + [o])
    case Program(o, _) => p.(programs := p.programs + [o])
    case Credit(_, _) => p
  }

  /** A submission that is taken puts the operation, under its identity, at the end of its family's pool and does nothing
      else; one that is refused does nothing. */
  lemma TakenIsPending(env: Env, n: NodeView, op: Op)
    ensures var r := Submit(env, n, op);
            if r.result.Err? then r.view == n
            else
              !op.Credit? && r.result.value == OpId(env, op)
              && r.view == n.(pools := WithPending(n.pools, op, n.pools.ids + {OpId(env, op)}))
  {
    hide ValidateTransaction, ValidateToken, ValidateSwap, ValidateReserve, ProgramEffect, Ids;
    match op
    case Transfer(tx) => TransferIdentity(env, n.state, tx);
    case Bridge(o) =>
    case Token(o) =>
    case Swap(o) =>
    case Reserve(o) =>
    case Program(o, h) =>
    case Credit(a, amount) =>
  }

  /** Records are kept of marked operations only. */
  ghost predicate RecordsMarked(s: Snapshot) {
    SwapsMarked(s) && s.mna.reserveRecords.Keys <= s.mna.processedReserves
  }

  lemma HeightDoesNotMatter(env: Env, s: Snapshot, o: ProgramOperation, height: nat)
    ensures ProgramEffect(env, s, o, height).Ok? ==> ProgramEffect(env, s, o, 0).Ok?
  {
    hide AuthorisedFee;
  }

  /** On empty pools, what the ledger would apply now and no block carries yet is taken. */
  lemma ApplicableIsTaken(env: Env, n: NodeView, op: Op)
    requires n.pools == EMPTY_POOLS && RecordsMarked(n.state) && !op.Credit?
    requires Apply(env, n.state, op).outcome == Done(true)
    requires op.Transfer? ==> OpId(env, op) !in n.disk.transactions
    ensures Submit(env, n, op).result.Ok?
  {
    hide ValidateTransaction, ValidateToken, ValidateSwap, ValidateReserve, ProgramEffect, SwapEffect, ReserveEffect,
         TokenEffect, FaucetTransfer, WalletTransfer;
    match op
    case Transfer(tx) =>
    case Bridge(o) =>
    case Token(o) =>
    case Swap(o) => SwapIdentity(env, n.state, o);
    case Reserve(o) => ReserveIdentity(env, n.state, o);
    case Program(o, height) => HeightDoesNotMatter(env, n.state, o, height);
    case Credit(a, amount) =>
  }

  /** From submission to effect: an operation that the ledger would apply now and no block carries yet is taken, the next
      block of a proposer in turn carries it and nothing else, and the node's state is the ledger's next state. */
  lemma SubmittedIsCarriedOut(env: Env, n: NodeView, op: Op, proposer: Option<PublicKey>, timestamp: nat)
    requires n.pools == EMPTY_POOLS && RecordsMarked(n.state) && !op.Credit?
    requires op == AtHeight(op, n.latest.header.height + 1) && Apply(env, n.state, op).outcome == Done(true)
    requires op.Transfer? ==> OpId(env, op) !in n.disk.transactions
    requires proposer.Some? ==> IsExpectedProposer(n, proposer.value)
    ensures var taken := Submit(env, n, op);
            && taken.result == Ok(OpId(env, op))
            && var p := Produce(env, taken.view, proposer, timestamp);
               p.result.Ok? && BlockOps(p.result.value) == [op] && p.view.state == Apply(env, n.state, op).state
  {
    var taken := Submit(env, n, op);
    ApplicableIsTaken(env, n, op);
    TakenIsPending(env, n, op);
    OnlyOnePending(env, n, op);
    hide Submit, WithPending, OpId;
    OnePendingIsProduced(env, n, taken.view, op, proposer, timestamp);
  }

  lemma OnePendingIsProduced(env: Env, n: NodeView, m: NodeView, op: Op, proposer: Option<PublicKey>, timestamp: nat)
    requires m == n.(pools := m.pools) && PendingOps(env, m) == [op] && Apply(env, n.state, op).outcome.Done?
    requires proposer.Some? ==> IsExpectedProposer(n, proposer.value)
    ensures var p := Produce(env, m, proposer, timestamp);
            p.result.Ok? && BlockOps(p.result.value) == [op] && p.view.state == Apply(env, n.state, op).state
  {
    hide Apply, Places, BlockOps, PendingOps, Build, Seal, Extended, Unstored;
    assert Produce(env, m, proposer, timestamp).result.Ok?;
    hide Produce, IsExpectedProposer;
    CarriesAcceptedExactly(env, m, proposer, timestamp);
    assert [op][..0] == [] && [op][1..] == [];
    assert 0 in Places(env, n.state, [op]);
    OnePlace(Places(env, n.state, [op]));
  }

  lemma OnePlace(places: seq<nat>)
    requires Ascending(places, 1) && 0 in places
    ensures places == [0]
  {
    var first, last := places[0], places[|places| - 1];
    assert last < 1;
  }

  lemma OnlyOnePending(env: Env, n: NodeView, op: Op)
    requires n.pools == EMPTY_POOLS && !op.Credit? && op == AtHeight(op, n.latest.header.height + 1)
    requires op.Transfer? ==> OpId(env, op) !in n.disk.transactions
    ensures forall ids :: PendingOps(env, n.(pools := WithPending(n.pools, op, ids))) == [op]
  {
    forall ids ensures PendingOps(env, n.(pools := WithPending(n.pools, op, ids))) == [op] {
      var p := WithPending(n.pools, op, ids);
      if op.Transfer? {
        assert [op.tx][1..] == [];
        assert Unstored(env, n.disk, p.transactions) == [op.tx];
      }
    }
  }

  /* ---------- the records stay marked ---------- */

  lemma SwapRecordsStayMarked(env: Env, s: Snapshot, o: MnaSwapOperation)
    requires RecordsMarked(s)
    ensures RecordsMarked(ApplySwap(env, s, o).state)
  {
    var id := env.swapId(o.unsigned);
    SwapIdentity(env, s, o);
    SwapWrites(env, s, o);
    SwapEffectWrites(s.(mna := s.mna.(processedSwaps := s.mna.processedSwaps + {id})), o, id);
    hide ValidateSwap, SwapEffect;
  }

  lemma ReserveEffectRecords(s: Snapshot, o: MnaReserveOperation, id: Hash)
    ensures ReserveEffect(s, o, id).Ok? ==>
              var next := ReserveEffect(s, o, id).value;
              next.mna.processedReserves == s.mna.processedReserves && next.mna.swapRecords == s.mna.swapRecords
              && next.mna.reserveRecords.Keys <= s.mna.reserveRecords.Keys + {id}
  {
    hide IsSupportedSol;
  }

  lemma ReserveRecordsStayMarked(env: Env, s: Snapshot, o: MnaReserveOperation)
    requires RecordsMarked(s)
    ensures RecordsMarked(ApplyReserve(env, s, o).state)
  {
    var id := env.reserveId(o);
    ReserveIdentity(env, s, o);
    ReserveWrites(env, s, o);
    ReserveEffectRecords(s.(mna := s.mna.(processedReserves := s.mna.processedReserves + {id})), o, id);
    hide ValidateReserve, ReserveEffect;
  }

  lemma StepKeepsRecordsMarked(env: Env, s: Snapshot, op: Op)
    requires RecordsMarked(s)
    ensures RecordsMarked(Apply(env, s, op).state)
  {
    hide ApplyTransaction, ApplyAssetOperation, ApplyToken, ApplySwap, ApplyReserve, ApplyProgram;
    match op
    case Transfer(tx) => TransferWrites(env, s, tx);
    case Bridge(o) => BridgeWrites(s, o);
    case Token(o) => TokenWrites(env, s, o, env.tokenOpId(o.unsigned));
    case Swap(o) => SwapRecordsStayMarked(env, s, o);
    case Reserve(o) => ReserveRecordsStayMarked(env, s, o);
    case Program(o, height) => ProgramWrites(env, s, o, height);
    case Credit(a, amount) =>
  }

  lemma {:induction false} ThroughKeepsRecordsMarked(env: Env, s: Snapshot, ops: seq<Op>)
    requires RecordsMarked(s)
    ensures RecordsMarked(Consent.Through(env, s, ops))
    decreases |ops|
  {
    hide Apply, RecordsMarked;
    if ops != [] {
      StepKeepsRecordsMarked(env, s, ops[0]);
      ThroughKeepsRecordsMarked(env, Apply(env, s, ops[0]).state, ops[1..]);
    }
  }

  lemma {:induction false} ReplayedIsThrough(env: Env, s: Snapshot, ops: seq<Op>)
    ensures Replayed(env, s, ops, Self).Ok? ==> Replayed(env, s, ops, Self).value == Consent.Through(env, s, ops)
    decreases |ops|
  {
    hide Apply;
    if ops != [] {
      ReplayedIsThrough(env, Apply(env, s, ops[0]).state, ops[1..]);
    }
  }

  lemma ImportGoesThrough(env: Env, n: NodeView, b: Block)
    ensures var i := Import(env, n, b).view; i == n || i.state == Consent.Through(env, n.state, BlockOps(b))
  {
    ReplayBlockIsOnePass(env, n.state, b);
    ReplayedIsThrough(env, n.state, BlockOps(b));
    hide ReplayBlock, Replayed, CheckHeader, CheckRoots, BlockOps, RemoveIds, BlockIds, Consent.Through;
  }

  lemma CountingKeepsState(env: Env, n: NodeView, ballot: Ballot)
    ensures FinalizeVotes(env, n, ballot).view.state == n.state
  {
    hide IsQuorum, VotesValid;
  }

  lemma NodeKeepsRecordsMarked(env: Env, n: NodeView, e: Event)
    requires ChainOk(env, n) && RecordsMarked(n.state)
    ensures RecordsMarked(NodeStep(env, n, e).state)
  {
    hide ChainOk, Submit, Import, Produce, Faucet, FinalizeVotes, Open, BlockOps, Consent.Through;
    match e
    case Submitted(op) => SubmitKeepsChain(env, n, op);
    case Produced(proposer, timestamp) =>
      CarriesAcceptedExactly(env, n, proposer, timestamp);
      ThroughKeepsRecordsMarked(env, n.state, PendingOps(env, n));
      RefusedProduction(env, n, proposer, timestamp);
    case Fauceted(a, amount, timestamp) => FaucetPaysOnDevnetsOnly(env, n, a, amount, timestamp);
    case Imported(b) =>
      ImportGoesThrough(env, n, b);
      ThroughKeepsRecordsMarked(env, n.state, BlockOps(b));
    case Counted(ballot) =>
      CountingKeepsState(env, n, ballot);
    case Restarted => RestartLosesOnlyPools(env, n);
  }

  lemma {:induction false} RunsKeepRecordsMarked(env: Env, n: NodeView, events: seq<Event>)
    requires HeadersHashApart(env) && ChainOk(env, n) && RecordsMarked(n.state)
    ensures RecordsMarked(NodeRun(env, n, events).state)
    decreases |events|
  {
    hide NodeStep, RecordsMarked;
    if events != [] {
      StepKeepsChain(env, n, events[0]);
      NodeKeepsRecordsMarked(env, n, events[0]);
      hide ChainOk;
      RunsKeepRecordsMarked(env, NodeStep(env, n, events[0]), events[1..]);
    }
  }

  lemma GenesisRecordsNothing(genesis: GenesisConfig)
    ensures InitialState(genesis).Some? ==> RecordsMarked(InitialState(genesis).value)
  {
  }

  /* ---------- the faucet ---------- */

  /** On devnet chains, and only there, the faucet raises one balance by the amount it names and appends a block that
      carries nothing; otherwise nothing happens. */
  lemma FaucetPaysOnDevnetsOnly(env: Env, n: NodeView, a: Address, amount: u128, timestamp: nat)
    ensures var f := Faucet(env, n, a, amount, timestamp);
            && (f.result.Ok? <==> IsDevnet(n.genesis.chainId) && AccountOf(n.state, a).balance + amount <= U128_MAX)
            && (f.result.Err? ==> f.view == n)
            && (f.result.Ok? ==>
                  && BlockOps(f.result.value) == [] && f.result.value.header.proposer.None?
                  && f.view.latest == f.result.value && f.view.pools == n.pools
                  && (forall x :: AccountOf(f.view.state, x).nonce == AccountOf(n.state, x).nonce
                                  && AccountOf(f.view.state, x).balance
                                     == AccountOf(n.state, x).balance + (if x == a then amount else 0))
                  && f.view.state == n.state.(native := f.view.state.native)
                  && f.view.state.native.feePool == n.state.native.feePool)
  {
    hide IsDevnet, BlockIds, Committed;
  }

  /** A chain is a devnet if its name has the word anywhere in it. */
  lemma {:induction false} ContainsAnywhere(text: string, part: string)
    ensures Contains(text, part) <==> exists i :: 0 <= i <= |text| && part <= text[i..]
  {
    if part <= text {
      assert part <= text[0..];
    } else if text != [] {
      ContainsAnywhere(text[1..], part);
      if i :| 0 <= i <= |text[1..]| && part <= text[1..][i..] {
        assert text[1..][i..] == text[i + 1..];
      }
      if i :| 0 <= i <= |text| && part <= text[i..] {
        assert text[0..] == text && text[i..] == text[1..][i - 1..];
      }
    } else {
      assert forall i :: 0 <= i <= |text| ==> text[i..] == text;
    }
  }
}
