/** The promise of the bridge over whole runs: what may be asked of the contract is in it, exactly as long as every move
    that takes from the rest finds enough of it. */
module Backing {
  import opened Wrappers
  import opened Core
  import opened Ledger
  import opened Escrow
  import opened Relayer
  import opened WrappedEther
  import opened BridgeSystem
  import DepositRows

  /** The contract holds at least all wrapped ether on the chain, all deposits still to be minted and all recorded burns
      still to be released. */
  ghost predicate Backed(cfg: Config, b: System) {
    WethTotal(b.chain, cfg.weth) + PendingDeposits(b.world.escrow.events, b.chain.assets.processed)
    + PendingBurns(b.chain.assets.records, b.world.escrow.releases, cfg.weth) <= b.world.escrow.balance
  }

  lemma BackedMeans(cfg: Config, b: System)
    ensures Backed(cfg, b) <==> Slack(cfg, b) >= 0
  {
  }

  /** The attempt makes the contract pay. */
  predicate Pays(w: World, id: Hash, a: Answer)
    requires id in w.rows
  {
    var row := w.rows[id];
    && row.direction == Outbound && ReleasedInEther(row.asset) && IsEthereumAddress(row.destination) && a.delivered
    && Released(w.escrow, true, id, row.destination, row.amount, a.accepted).result.Ok?
  }

  /** What a move takes from the ether that backs something else: the payment of a burn that was not of WETH, or a
      recorded burn that was not held, less a deposit that loses its mint to it. */
  function Taken(cfg: Config, b: System, m: Move): nat {
    match m
    case AttemptMove(id, a, now) =>
      if id in b.world.rows && b.world.rows[id].asset != cfg.weth && Pays(b.world, id, a) then b.world.rows[id].amount
      else 0
    case ChainMove(op) =>
      if TakesBacking(cfg, b, op) then op.asset.amount - DepositedUnder(b.world.escrow.events, op.asset.operationId)
      else 0
    case _ => 0
  }

  /* ---------- one move ---------- */

  lemma SlackOnlyNeeds(cfg: Config, b: System, c: System)
    ensures b.chain == c.chain && b.world.escrow == c.world.escrow ==> Slack(cfg, b) == Slack(cfg, c)
  {
  }

  lemma DepositSlack(env: Env, cfg: Config, b: System, id: Hash, value: nat, destination: Option<string>)
    ensures Slack(cfg, Next(env, cfg, b, UserDeposit(id, value, destination))) >= Slack(cfg, b)
  {
    hide CanonicalKey, PendingBurns, PendingDeposits;
    PendingDeposited(b.world.escrow.events, b.chain.assets.processed, DepositEvent(id, value, destination, b.head + 1));
  }

  lemma AttemptSlack(env: Env, cfg: Config, b: System, id: Hash, a: Answer, now: nat)
    requires SystemOk(cfg, b) && id in b.world.rows
    ensures var m := AttemptMove(id, a, now);
            Slack(cfg, Next(env, cfg, b, m)) == Slack(cfg, b) - Taken(cfg, b, m)
  {
    hide CanonicalKey, HasDeposit, RecordsTrue, OutboxTrue, EventsMatch, Covered, IsEthereumAddress, IsZeroAddress,
         Slack, MintOf;
    var row, next := b.world.rows[id], Next(env, cfg, b, AttemptMove(id, a, now));
    assert RowTrue(cfg, b.world.escrow, b.chain, id, row);
    SlackOnlyNeeds(cfg, b, next);
    if Pays(b.world, id, a) {
      ReleaseMovesSlack(cfg, b, id, row.asset, row.destination, row.amount, a.accepted);
      SlackOnlyNeeds(cfg, b.(world := b.world.(escrow := next.world.escrow)), next);
    }
  }

  /** A move takes exactly what it is said to take; without that the slack does not shrink. */
  lemma MoveSlack(env: Env, cfg: Config, b: System, m: Move)
    requires GoodConfig(cfg) && SystemOk(cfg, b) && Allowed(env, cfg, b, m)
    ensures var next := Next(env, cfg, b, m);
            if Taken(cfg, b, m) == 0 then Slack(cfg, next) >= Slack(cfg, b)
            else Slack(cfg, next) == Slack(cfg, b) - Taken(cfg, b, m)
  {
    hide SystemOk, GoodConfig, Slack, IsDue, MintsAreRelayed, UnheldBurn, DepositedUnder;
    match m
    case UserDeposit(id, value, destination) => DepositSlack(env, cfg, b, id, value, destination);
    case PlainTransfer(value) => TransferSlack(cfg, b, value);
    case AttemptMove(id, a, now) => AttemptSlack(env, cfg, b, id, a, now);
    case ChainMove(op) => ChainKeepsSlackExactly(env, cfg, b, op);
    case NewBlock => SlackOnlyNeeds(cfg, b, Next(env, cfg, b, m));
    case ScanMove(_, _, _) => SlackOnlyNeeds(cfg, b, Next(env, cfg, b, m));
    case OtherDeposit(_, _) => SlackOnlyNeeds(cfg, b, Next(env, cfg, b, m));
    case BurnsMove(_, _) => SlackOnlyNeeds(cfg, b, Next(env, cfg, b, m));
    case ConfirmMove(_, _) => SlackOnlyNeeds(cfg, b, Next(env, cfg, b, m));
  }

  lemma TransferSlack(cfg: Config, b: System, value: nat)
    ensures Slack(cfg, b.(world := b.world.(escrow := Received(b.world.escrow, value)))) == Slack(cfg, b) + value
  {
  }

  /* ---------- runs ---------- */

  ghost predicate BackedThroughout(env: Env, cfg: Config, b: System, moves: seq<Move>)
    requires AllowedRun(env, cfg, b, moves)
    decreases |moves|
  {
    Backed(cfg, b) && (moves != [] ==> BackedThroughout(env, cfg, Next(env, cfg, b, moves[0]), moves[1..]))
  }

  /** What each move takes is spare at its turn. */
  ghost predicate TakenIsSpare(env: Env, cfg: Config, b: System, moves: seq<Move>)
    requires AllowedRun(env, cfg, b, moves)
    decreases |moves|
  {
    moves != [] ==>
      Taken(cfg, b, moves[0]) <= Slack(cfg, b) && TakenIsSpare(env, cfg, Next(env, cfg, b, moves[0]), moves[1..])
  }

  lemma {:induction false} RunStaysBacked(env: Env, cfg: Config, b: System, moves: seq<Move>)
    requires GoodConfig(cfg) && SystemOk(cfg, b) && Backed(cfg, b) && AllowedRun(env, cfg, b, moves)
    ensures BackedThroughout(env, cfg, b, moves) <==> TakenIsSpare(env, cfg, b, moves)
    decreases |moves|
  {
    hide SystemOk, GoodConfig, Next, Slack, Taken, Backed, MintsAreRelayed;
    if moves != [] {
      var next := Next(env, cfg, b, moves[0]);
      NextKeeps(env, cfg, b, moves[0]);
      MoveSlack(env, cfg, b, moves[0]);
      BackedMeans(cfg, b);
      BackedMeans(cfg, next);
      if Backed(cfg, next) {
        RunStaysBacked(env, cfg, next, moves[1..]);
      }
    }
  }

  /** Solvency of the bridge: a run from the start, with operations of any outcome and burns of any asset, keeps the
      contract's promise throughout if and only if whatever is taken is spare at its turn. */
  lemma BridgeStaysBacked(env: Env, cfg: Config, head: nat, chainId: string, feeMinimum: u128,
                          accounts: map<Address, Account>, moves: seq<Move>)
    requires GoodConfig(cfg) && AllowedRun(env, cfg, StartSystem(head, chainId, feeMinimum, accounts), moves)
    ensures var start := StartSystem(head, chainId, feeMinimum, accounts);
            BackedThroughout(env, cfg, start, moves) <==> TakenIsSpare(env, cfg, start, moves)
  {
    hide AllowedRun, SystemOk, StartSystem, Slack, Backed, BackedThroughout, TakenIsSpare;
    var start := StartSystem(head, chainId, feeMinimum, accounts);
    StartIsOk(cfg, head, chainId, feeMinimum, accounts);
    BackedMeans(cfg, start);
    RunStaysBacked(env, cfg, start, moves);
  }

  /* ---------- chains on which nothing is taken ---------- */

  /** Burns that the relayer releases in ether are burns of WETH. */
  predicate BurnsAreWeth(cfg: Config, op: Op) {
    op.Bridge? && op.asset.kind == BridgeBurn && ReleasedInEther(CanonicalKey(op.asset.assetId)) ==>
      CanonicalKey(op.asset.assetId) == cfg.weth
  }

  /** No operation of the run is a burn recorded without being held, or a burn of another asset that goes to ether. */
  ghost predicate OnlyWethBurns(env: Env, cfg: Config, b: System, moves: seq<Move>)
    requires AllowedRun(env, cfg, b, moves)
    decreases |moves|
  {
    moves != [] ==>
      && (moves[0].ChainMove? ==> BurnsAreWeth(cfg, moves[0].op) && !TakesBacking(cfg, b, moves[0].op))
      && OnlyWethBurns(env, cfg, Next(env, cfg, b, moves[0]), moves[1..])
  }

  /** Recorded burns and outbound rows that go to ether are of WETH. */
  ghost predicate OnlyWeth(cfg: Config, b: System) {
    && (forall id | id in b.chain.assets.records :: BurnsAreWeth(cfg, Bridge(b.chain.assets.records[id])))
    && (forall id | id in b.world.rows ::
          b.world.rows[id].direction == Outbound && ReleasedInEther(b.world.rows[id].asset) ==>
            b.world.rows[id].asset == cfg.weth)
  }

  lemma RecordsStayWeth(env: Env, cfg: Config, s: Snapshot, op: Op)
    requires BurnsAreWeth(cfg, op)
    requires forall id | id in s.assets.records :: BurnsAreWeth(cfg, Bridge(s.assets.records[id]))
    ensures var s' := Apply(env, s, op).state;
            forall id | id in s'.assets.records :: BurnsAreWeth(cfg, Bridge(s'.assets.records[id]))
  {
    BookedRecords(env, s, op);
    hide CanonicalKey, Apply, ReleasedInEther, Replay.BridgeChecked;
  }

  lemma OnlyWethStays(env: Env, cfg: Config, b: System, m: Move)
    requires GoodConfig(cfg) && SystemOk(cfg, b) && Allowed(env, cfg, b, m) && OnlyWeth(cfg, b)
    requires m.ChainMove? ==> BurnsAreWeth(cfg, m.op)
    ensures OnlyWeth(cfg, Next(env, cfg, b, m))
  {
    var next := Next(env, cfg, b, m);
    if m.ChainMove? {
      RecordsStayWeth(env, cfg, b.chain, m.op);
      hide Apply, CanonicalKey, ReleasedInEther;
    } else {
      DepositRows.MoveKeepsDeals(env, cfg, b, m);
      NextKeeps(env, cfg, b, m);
      forall id | id in next.world.rows && next.world.rows[id].direction == Outbound
                  && ReleasedInEther(next.world.rows[id].asset)
        ensures next.world.rows[id].asset == cfg.weth
      {
        hide Next, CanonicalKey, HasDeposit, ReleasedInEther;
        assert RowTrue(cfg, next.world.escrow, next.chain, id, next.world.rows[id]);
        assert BurnsAreWeth(cfg, Bridge(next.chain.assets.records[id]));
      }
    }
  }

  lemma NothingTaken(env: Env, cfg: Config, b: System, m: Move)
    requires Allowed(env, cfg, b, m) && OnlyWeth(cfg, b) && (m.ChainMove? ==> !TakesBacking(cfg, b, m.op))
    ensures Taken(cfg, b, m) == 0
  {
    hide TakesBacking, Released, IsEthereumAddress, IsZeroAddress, MintsAreRelayed, BurnsAreWeth;
  }

  lemma {:induction false} NothingTakenOnRun(env: Env, cfg: Config, b: System, moves: seq<Move>)
    requires GoodConfig(cfg) && SystemOk(cfg, b) && Backed(cfg, b) && AllowedRun(env, cfg, b, moves)
    requires OnlyWeth(cfg, b) && OnlyWethBurns(env, cfg, b, moves)
    ensures TakenIsSpare(env, cfg, b, moves)
    decreases |moves|
  {
    hide SystemOk, GoodConfig, Next, Slack, Taken, Backed, MintsAreRelayed, OnlyWeth, BurnsAreWeth, TakesBacking;
    if moves != [] {
      var next := Next(env, cfg, b, moves[0]);
      NextKeeps(env, cfg, b, moves[0]);
      OnlyWethStays(env, cfg, b, moves[0]);
      NothingTaken(env, cfg, b, moves[0]);
      MoveSlack(env, cfg, b, moves[0]);
      BackedMeans(cfg, b);
      BackedMeans(cfg, next);
      NothingTakenOnRun(env, cfg, next, moves[1..]);
    }
  }

  /** In particular: where every burn that goes to ether is a burn of WETH, held or made up for by its own deposit, the
      contract keeps its promise throughout every run. */
  lemma WethBurnsStayBacked(env: Env, cfg: Config, head: nat, chainId: string, feeMinimum: u128,
                            accounts: map<Address, Account>, moves: seq<Move>)
    requires GoodConfig(cfg) && AllowedRun(env, cfg, StartSystem(head, chainId, feeMinimum, accounts), moves)
    requires OnlyWethBurns(env, cfg, StartSystem(head, chainId, feeMinimum, accounts), moves)
    ensures BackedThroughout(env, cfg, StartSystem(head, chainId, feeMinimum, accounts), moves)
  {
    var start := StartSystem(head, chainId, feeMinimum, accounts);
    assert OnlyWeth(cfg, start);
    hide AllowedRun, SystemOk, StartSystem, Slack, Backed, BackedThroughout, TakenIsSpare, OnlyWethBurns, OnlyWeth;
    StartIsOk(cfg, head, chainId, feeMinimum, accounts);
    BackedMeans(cfg, start);
    NothingTakenOnRun(env, cfg, start, moves);
    RunStaysBacked(env, cfg, start, moves);
  }

  /** While the promise holds, a delivered release of a WETH row fails for three reasons only: it was made before, the
      recipient is the zero address, or the recipient refuses the ether. Never for lack of reserve. */
  lemma ReleaseFailsExactly(cfg: Config, b: System, id: Hash, accepted: bool)
    requires SystemOk(cfg, b) && Backed(cfg, b) && id in b.world.rows
    requires b.world.rows[id].direction == Outbound && b.world.rows[id].asset == cfg.weth
    ensures var row := b.world.rows[id];
            Released(b.world.escrow, true, id, row.destination, row.amount, accepted).result.Ok?
            <==> id !in b.world.escrow.releases && !IsZeroAddress(row.destination) && accepted
  {
    BackedMeans(cfg, b);
    hide CanonicalKey, Slack, Backed, OutboxTrue, EventsMatch, Covered, IsZeroAddress;
    var row := b.world.rows[id];
    assert RowTrue(cfg, b.world.escrow, b.chain, id, row) && RecordTrue(b.chain, id);
    ReleaseIsCovered(cfg, b, id, row.destination, row.amount, accepted);
  }
}
