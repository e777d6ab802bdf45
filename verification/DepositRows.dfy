/** Which deposits the relayer works on: one table serves every source of deposits and burns, keyed by an identity
    that the depositor chooses, and a row that is there is never replaced. */
module DepositRows {
  import opened Wrappers
  import opened Core
  import opened Ledger
  import opened Escrow
  import opened Relayer
  import opened BridgeSystem

  /** The deposit's own row: inbound wrapped ether, with the amount deposited. */
  predicate TakesDeposit(cfg: Config, rows: map<Hash, Row>, e: DepositEvent) {
    e.id in rows && rows[e.id].direction == Inbound && rows[e.id].asset == cfg.weth && rows[e.id].amount == e.amount
  }

  /** What a row is about, whatever became of it. */
  predicate SameDeal(r: Row, q: Row) {
    && r.direction == q.direction && r.asset == q.asset && r.address == q.address && r.destination == q.destination
    && r.amount == q.amount && r.external == q.external && r.sourceBlock == q.sourceBlock
    && r.createdAt == q.createdAt
  }

  ghost predicate KeepsDeals(rows: map<Hash, Row>, rows': map<Hash, Row>) {
    forall id | id in rows :: id in rows' && SameDeal(rows[id], rows'[id])
  }

  /** Where one cycle starts to scan. */
  function ScanStart(b: System, start: nat): nat {
    if b.cursor.Some? then b.cursor.value else start
  }

  lemma ScanKeepsRows(cfg: Config, rows: map<Hash, Row>, events: seq<DepositEvent>, others: seq<Source>, from: nat,
      to: nat, now: nat)
    requires forall k :: 0 <= k < |others| ==> others[k].asset != cfg.weth
    ensures var r := ScanSources(rows, [Source(events, cfg.weth)] + others, from, to, now);
            (forall id | id in rows :: id in r.rows && r.rows[id] == rows[id]) && KeepsDeals(rows, r.rows)
  {
    hide ScanEvents, ScanSources;
    var sources := [Source(events, cfg.weth)] + others;
    ScanFacts(rows, events, cfg.weth, from, to, now);
    ScanFirst(rows, sources, from, to, now);
    assert sources[1..] == others;
    OthersFacts(ScanEvents(rows, events, cfg.weth, from, to, now).rows, others, cfg.weth, from, to, now);
  }

  lemma MoveKeepsDeals(env: Env, cfg: Config, b: System, m: Move)
    requires Allowed(env, cfg, b, m)
    ensures KeepsDeals(b.world.rows, Next(env, cfg, b, m).world.rows)
  {
    hide CanonicalKey, ScanEvents, ScanSources, ReadBurns, Apply, MintOf;
    match m
    case ScanMove(start, others, now) =>
      if b.head - cfg.confirmations >= ScanStart(b, start) {
        ScanKeepsRows(cfg, b.world.rows, b.world.escrow.events, others, ScanStart(b, start),
                      b.head - cfg.confirmations, now);
      }
    case BurnsMove(records, now) => BurnFacts(b.world.rows, records, now);
    case _ =>
  }

  /** A row once written is about the same deal forever. */
  lemma {:induction false} RunKeepsDeals(env: Env, cfg: Config, b: System, moves: seq<Move>)
    requires AllowedRun(env, cfg, b, moves)
    ensures KeepsDeals(b.world.rows, After(env, cfg, b, moves).world.rows)
    decreases |moves|
  {
    hide Next, MintsAreRelayed;
    if moves != [] {
      MoveKeepsDeals(env, cfg, b, moves[0]);
      RunKeepsDeals(env, cfg, Next(env, cfg, b, moves[0]), moves[1..]);
    }
  }

  /** This cycle moved the cursor past the deposit. */
  predicate Passes(env: Env, cfg: Config, b: System, scan: Move, e: DepositEvent)
    requires scan.ScanMove?
  {
    var c := Next(env, cfg, b, scan); c.cursor.Some? && ScanStart(b, scan.start) <= e.block < c.cursor.value
  }

  lemma ScanWritesRow(cfg: Config, rows: map<Hash, Row>, events: seq<DepositEvent>, others: seq<Source>, from: nat,
      to: nat, now: nat, i: nat)
    requires forall j, k :: 0 <= j < k < |events| ==> events[j].id != events[k].id
    requires forall k :: 0 <= k < |others| ==> others[k].asset != cfg.weth
    requires i < |events| && from <= events[i].block <= to && events[i].id !in rows
    ensures var r := ScanSources(rows, [Source(events, cfg.weth)] + others, from, to, now);
            r.done ==> TakesDeposit(cfg, r.rows, events[i])
  {
    hide ScanEvents, ScanSources;
    var sources := [Source(events, cfg.weth)] + others;
    var first := ScanEvents(rows, events, cfg.weth, from, to, now);
    ScanFacts(rows, events, cfg.weth, from, to, now);
    ScanFirst(rows, sources, from, to, now);
    assert sources[1..] == others;
    OthersFacts(first.rows, others, cfg.weth, from, to, now);
  }

  /** The cycle that passes a deposit leaves it with its own row if and only if no other source and no burn had put a
      row under its identity before; nothing that happens later changes that. */
  lemma DepositTakenExactly(env: Env, cfg: Config, b: System, scan: Move, i: nat, later: seq<Move>)
    requires SystemOk(cfg, b) && scan.ScanMove? && Allowed(env, cfg, b, scan)
    requires i < |b.world.escrow.events| && Passes(env, cfg, b, scan, b.world.escrow.events[i])
    requires AllowedRun(env, cfg, Next(env, cfg, b, scan), later)
    ensures var e, rows := b.world.escrow.events[i], After(env, cfg, Next(env, cfg, b, scan), later).world.rows;
            && e.id in rows
            && (TakesDeposit(cfg, rows, e) <==> e.id !in b.world.rows || TakesDeposit(cfg, b.world.rows, e))
  {
    hide ScanSources, ScanEvents, RowsTrue, OutboxTrue, RecordsTrue, AllowedRun, After;
    var e, c := b.world.escrow.events[i], Next(env, cfg, b, scan);
    MoveKeepsDeals(env, cfg, b, scan);
    RunKeepsDeals(env, cfg, c, later);
    if e.id !in b.world.rows {
      ScanWritesRow(cfg, b.world.rows, b.world.escrow.events, scan.others, ScanStart(b, scan.start),
                    b.head - cfg.confirmations, scan.now, i);
    }
  }

  /** Every deposit below the cursor has a row, and the row is the deposit's own if and only if it is for inbound
      wrapped ether. */
  lemma NoDepositSkipped(cfg: Config, b: System, i: nat)
    requires SystemOk(cfg, b) && i < |b.world.escrow.events| && b.cursor.Some?
    requires b.first <= b.world.escrow.events[i].block < b.cursor.value
    ensures var e, rows := b.world.escrow.events[i], b.world.rows;
            && e.id in rows
            && (TakesDeposit(cfg, rows, e) <==> rows[e.id].direction == Inbound && rows[e.id].asset == cfg.weth)
  {
    hide CanonicalKey, OutboxTrue, RecordsTrue;
    var e := b.world.escrow.events[i];
    assert RowTrue(cfg, b.world.escrow, b.chain, e.id, b.world.rows[e.id]);
  }

  /** From the start: a row of another asset is in the table, then somebody deposits ether under its identity. */
  function SquattingMoves(id: Hash, row: Row, value: nat, destination: string, now: nat): seq<Move> {
    [OtherDeposit(id, row), UserDeposit(id, value, Some(destination)), NewBlock, ScanMove(0, [], now)]
  }

  /** A deposit under a squatted identity is lost: the contract takes the ether, the cursor passes the deposit, and in
      no run that follows does it ever get a row of its own. */
  lemma SquattedDepositIsLost(env: Env, cfg: Config, chainId: string, accounts: map<Address, Account>, id: Hash,
      row: Row, value: nat, destination: string, now: nat)
    requires cfg.confirmations == 0 && row.direction == Inbound && row.asset != cfg.weth && value > 0
    ensures var start, moves := StartSystem(0, chainId, 0, accounts), SquattingMoves(id, row, value, destination, now);
            var e := DepositEvent(id, value, Some(destination), 1);
            && AllowedRun(env, cfg, start, moves)
            && var b := After(env, cfg, start, moves);
               && b.world.escrow.events == [e] && b.world.escrow.balance == value && b.cursor == Some(2)
               && forall later | AllowedRun(env, cfg, b, later) ::
                    !TakesDeposit(cfg, After(env, cfg, b, later).world.rows, e)
  {
    hide Next, AllowedRun, After, StartSystem, MintsAreRelayed, IsDue;
    var b, moves := StartSystem(0, chainId, 0, accounts), SquattingMoves(id, row, value, destination, now);
    var e := DepositEvent(id, value, Some(destination), 1);
    var b1 := Next(env, cfg, b, moves[0]);
    var b2 := Next(env, cfg, b1, moves[1]);
    var b3 := Next(env, cfg, b2, moves[2]);
    var b4 := Next(env, cfg, b3, moves[3]);
    SquattedStep(env, cfg, chainId, accounts, id, row, value, destination);
    ScanPassesSquatted(env, cfg, b3, e, now);
    NoMoves(env, cfg, b4);
    RunStep(env, cfg, b3, moves[3], []);
    RunStep(env, cfg, b2, moves[2], [moves[3]] + []);
    RunStep(env, cfg, b1, moves[1], [moves[2]] + ([moves[3]] + []));
    RunStep(env, cfg, b, moves[0], [moves[1]] + ([moves[2]] + ([moves[3]] + [])));
    assert moves == [moves[0]] + ([moves[1]] + ([moves[2]] + ([moves[3]] + [])));
    forall later | AllowedRun(env, cfg, b4, later)
      ensures !TakesDeposit(cfg, After(env, cfg, b4, later).world.rows, e)
    {
      RunKeepsDeals(env, cfg, b4, later);
    }
  }

  lemma SquattedStep(env: Env, cfg: Config, chainId: string, accounts: map<Address, Account>, id: Hash, row: Row,
      value: nat, destination: string)
    requires value > 0
    ensures var b := StartSystem(0, chainId, 0, accounts);
            var c := Next(env, cfg, Next(env, cfg, Next(env, cfg, b, OtherDeposit(id, row)),
                                         UserDeposit(id, value, Some(destination))), NewBlock);
            && c.world.rows == map[id := row] && c.world.escrow.balance == value && c.cursor == None && c.head == 1
            && c.world.escrow.events == [DepositEvent(id, value, Some(destination), 1)]
  {
  }

  /** A scan over a single deposit whose identity is taken. */
  lemma ScanPassesSquatted(env: Env, cfg: Config, b: System, e: DepositEvent, now: nat)
    requires cfg.confirmations == 0 && b.cursor == None && b.head == 1 && b.world.escrow.events == [e]
    requires e.id in b.world.rows && e.block == 1 && e.destination.Some?
    ensures var c := Next(env, cfg, b, ScanMove(0, [], now));
            c.world == b.world && c.cursor == Some(2)
  {
    var own := Source([e], cfg.weth);
    assert [own] + [] == [own] && [own][1..] == [] && [e][1..] == [];
    assert ScanEvents(b.world.rows, [], cfg.weth, 0, 1, now) == Scan(b.world.rows, true);
    assert ScanEvents(b.world.rows, [e], cfg.weth, 0, 1, now) == Scan(b.world.rows, true);
    assert ScanSources(b.world.rows, [own], 0, 1, now) == Scan(b.world.rows, true);
  }
}
