/** The WETH bridge as a whole: contract, relayer and chain, under any interleaving of deposits, scans, retries,
    mints, burns and releases. */
module BridgeSystem {
  import opened Wrappers
  import opened Core
  import opened Ledger
  import opened Sums
  import opened Frames
  import opened Holdings
  import Replay
  import opened WrappedEther
  import opened Escrow
  import opened Relayer

  /** `head`: the newest Ethereum block; deposits go into the next one. `first`: where scanning started. */
  datatype System = System(world: World, cursor: Option<nat>, first: nat, head: nat, chain: Snapshot)

  datatype Move =
    | UserDeposit(id: Hash, value: nat, destination: Option<string>)
    | PlainTransfer(value: nat)
    | NewBlock
    | ScanMove(start: nat, others: seq<Source>, now: nat)
    | OtherDeposit(id: Hash, row: Row)
    | BurnsMove(records: seq<AssetOperation>, now: nat)
    | AttemptMove(id: Hash, answer: Answer, now: nat)
    | ConfirmMove(unreachable: set<Hash>, now: nat)
    | ChainMove(op: Op)

  predicate GoodConfig(cfg: Config) {
    IsWethText(cfg.weth) && cfg.solMna != cfg.weth
  }

  /** Burns of wrapped SOL go to Solana; every other burn is released from the WETH contract. */
  predicate ReleasedInEther(asset: string) {
    !(WSOL_PREFIX <= asset)
  }

  /** WETH is minted on request of the relayer only. */
  predicate MintsAreRelayed(cfg: Config, w: World, op: Op) {
    op.Bridge? && op.asset.kind == BridgeMint && CanonicalKey(op.asset.assetId) == cfg.weth ==> op.asset in w.outbox
  }

  /** A burn of WETH that reaches the records although its holder does not have the amount. */
  predicate UnheldBurn(cfg: Config, s: Snapshot, op: Op) {
    && op.Bridge? && op.asset.kind == BridgeBurn && CanonicalKey(op.asset.assetId) == cfg.weth
    && Replay.BridgeChecked(s, op.asset)
    && AssetBalance(s, op.asset.address, cfg.weth) < op.asset.amount
  }

  /** Everything deposited under one identity. */
  function DepositedUnder(events: seq<DepositEvent>, id: Hash): nat {
    if events == [] then 0
    else
      var last := events[|events| - 1];
      DepositedUnder(events[..|events| - 1], id) + (if last.id == id then last.amount else 0)
  }

  /** Such a burn, when no deposit loses its mint to the burn's identity and so makes up for it. */
  predicate TakesBacking(cfg: Config, b: System, op: Op) {
    UnheldBurn(cfg, b.chain, op) && DepositedUnder(b.world.escrow.events, op.asset.operationId) < op.asset.amount
  }

  ghost predicate Allowed(env: Env, cfg: Config, b: System, m: Move) {
    match m
    case ScanMove(start, others, now) => forall i :: 0 <= i < |others| ==> others[i].asset != cfg.weth
    case OtherDeposit(id, row) => row.direction == Inbound && row.asset != cfg.weth
    case BurnsMove(records, now) => forall o | o in records ::
      o.operationId in b.chain.assets.records && b.chain.assets.records[o.operationId] == o
    case AttemptMove(id, answer, now) => id in b.world.rows && IsDue(b.world.rows[id], now)
    case ChainMove(op) => MintsAreRelayed(cfg, b.world, op)
    case _ => true
  }

  function WithRows(b: System, rows: map<Hash, Row>): System {
    b.(world := b.world.(rows := rows))
  }

  function Next(env: Env, cfg: Config, b: System, m: Move): System
    requires m.AttemptMove? ==> m.id in b.world.rows
  {
    match m
    case UserDeposit(id, value, destination) =>
      b.(world := b.world.(escrow := Deposited(b.world.escrow, id, value, destination, b.head + 1).escrow))
    case PlainTransfer(value) => b.(world := b.world.(escrow := Received(b.world.escrow, value)))
    case NewBlock => b.(head := b.head + 1)
    case ScanMove(start, others, now) =>
      var book := ScanCycle(Book(b.world.rows, b.cursor), start, b.head, cfg.confirmations,
                            [Source(b.world.escrow.events, cfg.weth)] + others, now);
      WithRows(b, book.rows).(cursor := book.cursor, first := if b.cursor.Some? then b.first else start)
    case OtherDeposit(id, row) => WithRows(b, InsertOrIgnore(b.world.rows, id, row))
    case BurnsMove(records, now) => WithRows(b, ReadBurns(b.world.rows, records, now))
    case AttemptMove(id, answer, now) => b.(world := Attempt(cfg, b.world, id, answer, now))
    case ConfirmMove(unreachable, now) =>
      WithRows(b, Confirmed(b.world.rows, b.chain.assets.processed, unreachable, now))
    case ChainMove(op) => b.(chain := Apply(env, b.chain, op).state)
  }

  /* ---------- the promise and what it rests on ---------- */

  /** Deposits not minted yet. */
  function PendingDeposits(events: seq<DepositEvent>, processed: set<Hash>): nat {
    if events == [] then 0
    else
      var last := events[|events| - 1];
      PendingDeposits(events[..|events| - 1], processed) + (if last.id in processed then 0 else last.amount)
  }

  ghost function UnreleasedBurns(records: map<Hash, AssetOperation>, releases: set<Hash>,
      weth: string): map<Hash, nat> {
    map id | id in records && records[id].kind == BridgeBurn && CanonicalKey(records[id].assetId) == weth
      && id !in releases
      :: records[id].amount
  }

  /** Recorded burns not released yet. */
  ghost function PendingBurns(records: map<Hash, AssetOperation>, releases: set<Hash>, weth: string): nat {
    Sum(UnreleasedBurns(records, releases, weth))
  }

  /** Ether in the contract beyond everything that may still be asked of it. */
  ghost function Slack(cfg: Config, b: System): int {
    b.world.escrow.balance - WethTotal(b.chain, cfg.weth)
    - PendingDeposits(b.world.escrow.events, b.chain.assets.processed)
    - PendingBurns(b.chain.assets.records, b.world.escrow.releases, cfg.weth)
  }

  predicate HasDeposit(e: EscrowView, id: Hash, amount: nat) {
    exists i :: 0 <= i < |e.events| && e.events[i].id == id && e.events[i].amount == amount
  }

  predicate HasBurn(chain: Snapshot, id: Hash, asset: string, amount: nat) {
    && id in chain.assets.records && chain.assets.records[id].kind == BridgeBurn
    && CanonicalKey(chain.assets.records[id].assetId) == asset && chain.assets.records[id].amount == amount
  }

  /** A row says what really happened on the side it came from. */
  predicate RowTrue(cfg: Config, e: EscrowView, chain: Snapshot, id: Hash, row: Row) {
    if row.direction == Inbound then row.asset == cfg.weth ==> HasDeposit(e, id, row.amount)
    else HasBurn(chain, id, row.asset, row.amount)
  }

  predicate MintTrue(cfg: Config, e: EscrowView, o: AssetOperation) {
    CanonicalKey(o.assetId) == cfg.weth ==> HasDeposit(e, o.operationId, o.amount)
  }

  predicate RecordTrue(chain: Snapshot, id: Hash) {
    && id in chain.assets.records && chain.assets.records[id].operationId == id && id in chain.assets.processed
    && chain.assets.records[id].amount > 0
  }

  ghost predicate RowsTrue(cfg: Config, e: EscrowView, chain: Snapshot, rows: map<Hash, Row>) {
    forall id | id in rows :: RowTrue(cfg, e, chain, id, rows[id])
  }

  ghost predicate OutboxTrue(cfg: Config, e: EscrowView, outbox: set<AssetOperation>) {
    forall o | o in outbox :: MintTrue(cfg, e, o)
  }

  ghost predicate RecordsTrue(chain: Snapshot) {
    forall id | id in chain.assets.records :: RecordTrue(chain, id)
  }

  /** No deposit in the scanned range is without a row. */
  ghost predicate Covered(events: seq<DepositEvent>, rows: map<Hash, Row>, cursor: Option<nat>, first: nat, head: nat) {
    && (forall i :: 0 <= i < |events| ==> events[i].block <= head + 1)
    && (cursor.Some? ==> cursor.value <= first || cursor.value <= head + 1)
    && (cursor.Some? ==> forall i :: 0 <= i < |events| && first <= events[i].block < cursor.value ==>
      events[i].id in rows)
  }

  ghost predicate SystemOk(cfg: Config, b: System) {
    var w, chain := b.world, b.chain;
    && EventsMatch(w.escrow)
    && RowsTrue(cfg, w.escrow, chain, w.rows)
    && OutboxTrue(cfg, w.escrow, w.outbox)
    && RecordsTrue(chain)
    && w.escrow.releases <= chain.assets.records.Keys
    && Covered(w.escrow.events, w.rows, b.cursor, b.first, b.head)
  }

  /* ---------- how the pending sums move ---------- */

  /** Marking an identity settles what was deposited under it. */
  lemma {:induction false} PendingMarked(events: seq<DepositEvent>, processed: set<Hash>, id: Hash)
    requires id !in processed
    ensures PendingDeposits(events, processed + {id}) == PendingDeposits(events, processed) - DepositedUnder(events, id)
  {
    if events != [] {
      PendingMarked(events[..|events| - 1], processed, id);
    }
  }

  lemma {:induction false} DepositCounts(events: seq<DepositEvent>, i: nat)
    requires i < |events|
    ensures events[i].amount <= DepositedUnder(events, events[i].id)
  {
    if i < |events| - 1 {
      DepositCounts(events[..|events| - 1], i);
    }
  }

  lemma PendingDeposited(events: seq<DepositEvent>, processed: set<Hash>, e: DepositEvent)
    ensures PendingDeposits(events + [e], processed)
            == PendingDeposits(events, processed) + (if e.id in processed then 0 else e.amount)
  {
    assert (events + [e])[..|events|] == events;
  }

  lemma BurnRecorded(records: map<Hash, AssetOperation>, releases: set<Hash>, weth: string, o: AssetOperation)
    requires o.operationId !in records && o.operationId !in releases
    ensures PendingBurns(records[o.operationId := o], releases, weth)
            == PendingBurns(records, releases, weth)
               + (if o.kind == BridgeBurn && CanonicalKey(o.assetId) == weth then o.amount else 0)
  {
    hide CanonicalKey;
    var before, after := UnreleasedBurns(records, releases, weth),
      UnreleasedBurns(records[o.operationId := o], releases, weth);
    if o.kind == BridgeBurn && CanonicalKey(o.assetId) == weth {
      assert after == before[o.operationId := o.amount];
      SumSet(before, o.operationId, o.amount);
    } else {
      assert after == before;
    }
  }

  lemma BurnReleased(records: map<Hash, AssetOperation>, releases: set<Hash>, weth: string, id: Hash)
    requires id in records && records[id].kind == BridgeBurn && id !in releases
    ensures PendingBurns(records, releases + {id}, weth)
            == PendingBurns(records, releases, weth)
               - (if CanonicalKey(records[id].assetId) == weth then records[id].amount else 0)
    ensures CanonicalKey(records[id].assetId) == weth ==> records[id].amount <= PendingBurns(records, releases, weth)
  {
    hide CanonicalKey;
    var before, after := UnreleasedBurns(records, releases, weth), UnreleasedBurns(records, releases + {id}, weth);
    if CanonicalKey(records[id].assetId) == weth {
      assert after == before - {id};
      SumWithout(before, id);
    } else {
      assert after == before;
    }
  }

  /* ---------- one release ---------- */

  /** A release of an accepted burn leaves the slack alone exactly when it is a burn of WETH; otherwise it takes
      ether that backs something else. */
  lemma ReleaseMovesSlack(cfg: Config, b: System, id: Hash, asset: string, recipient: string, amount: nat, accepted: bool)
    requires HasBurn(b.chain, id, asset, amount)
    ensures var called := Released(b.world.escrow, true, id, recipient, amount, accepted);
            called.result.Ok? ==>
              Slack(cfg, b.(world := b.world.(escrow := called.escrow)))
              == Slack(cfg, b) - (if asset == cfg.weth then 0 else amount)
  {
    hide CanonicalKey, KeyTotal;
    if id !in b.world.escrow.releases {
      BurnReleased(b.chain.assets.records, b.world.escrow.releases, cfg.weth, id);
    }
  }

  /** While the promise holds, the contract never lacks the ether for an accepted burn of WETH. */
  lemma ReleaseIsCovered(cfg: Config, b: System, id: Hash, recipient: string, amount: nat, accepted: bool)
    requires Slack(cfg, b) >= 0 && HasBurn(b.chain, id, cfg.weth, amount)
    ensures Released(b.world.escrow, true, id, recipient, amount, accepted).result != Err(InsufficientReserve)
  {
    hide CanonicalKey, KeyTotal;
    if id !in b.world.escrow.releases {
      BurnReleased(b.chain.assets.records, b.world.escrow.releases, cfg.weth, id);
    }
  }

  /* ---------- every move keeps the system in order ---------- */

  /** More events make nothing that was true false. */
  lemma MoreDeposits(cfg: Config, e: EscrowView, e': EscrowView, chain: Snapshot, rows: map<Hash, Row>,
      outbox: set<AssetOperation>)
    requires e.events <= e'.events && RowsTrue(cfg, e, chain, rows) && OutboxTrue(cfg, e, outbox)
    ensures RowsTrue(cfg, e', chain, rows) && OutboxTrue(cfg, e', outbox)
  {
    hide CanonicalKey, HasBurn;
    forall x, a: nat | HasDeposit(e, x, a) ensures HasDeposit(e', x, a) {
      var i :| 0 <= i < |e.events| && e.events[i].id == x && e.events[i].amount == a;
      assert e'.events[i].id == x;
    }
    hide HasDeposit;
    forall id | id in rows ensures RowTrue(cfg, e', chain, id, rows[id]) {
      assert RowTrue(cfg, e, chain, id, rows[id]);
    }
    forall o | o in outbox ensures MintTrue(cfg, e', o) {
      assert MintTrue(cfg, e, o);
    }
  }

  lemma DepositKeeps(env: Env, cfg: Config, b: System, id: Hash, value: nat, destination: Option<string>)
    requires SystemOk(cfg, b)
    ensures SystemOk(cfg, Next(env, cfg, b, UserDeposit(id, value, destination)))
  {
    hide CanonicalKey, KeyTotal, PendingBurns, PendingDeposits, RowsTrue, OutboxTrue, RecordsTrue, EventsMatch;
    var e, called := b.world.escrow, Deposited(b.world.escrow, id, value, destination, b.head + 1);
    DepositKeepsEvents(e, id, value, destination, b.head + 1);
    if called.result.Ok? {
      MoreDeposits(cfg, e, called.escrow, b.chain, b.world.rows, b.world.outbox);
    }
  }

  lemma {:induction false} ScanFacts(rows: map<Hash, Row>, events: seq<DepositEvent>, asset: string, from: nat,
      to: nat, now: nat)
    ensures var r := ScanEvents(rows, events, asset, from, to, now);
            && (forall id | id in rows :: id in r.rows && r.rows[id] == rows[id])
            && (forall id | id in r.rows && id !in rows :: r.rows[id].direction == Inbound && r.rows[id].asset == asset
                  && exists i :: 0 <= i < |events| && events[i].id == id && events[i].amount == r.rows[id].amount)
            && (r.done ==> forall i :: 0 <= i < |events| && from <= events[i].block <= to ==> events[i].id in r.rows)
    decreases |events|
  {
    if events != [] {
      var e, rest := events[0], events[1..];
      var hit := from <= e.block <= to && e.destination.Some?;
      var rows' := if hit then InsertOrIgnore(rows, e.id, DepositRow(e, asset, now)) else rows;
      ScanFacts(rows', rest, asset, from, to, now);
      var r := ScanEvents(rows, events, asset, from, to, now);
      forall id | id in r.rows && id !in rows
        ensures r.rows[id].direction == Inbound && r.rows[id].asset == asset
        ensures exists i :: 0 <= i < |events| && events[i].id == id && events[i].amount == r.rows[id].amount
      {
        if id in rows' {
          assert events[0].id == id;
        } else {
          var i :| 0 <= i < |rest| && rest[i].id == id && rest[i].amount == r.rows[id].amount;
          assert events[i + 1].id == id;
        }
      }
      forall i | r.done && 0 <= i < |events| && from <= events[i].block <= to ensures events[i].id in r.rows {
        if i > 0 { assert rest[i - 1] == events[i]; }
      }
    }
  }

  lemma {:induction false} OthersFacts(rows: map<Hash, Row>, others: seq<Source>, weth: string, from: nat, to: nat,
      now: nat)
    requires forall i :: 0 <= i < |others| ==> others[i].asset != weth
    ensures var r := ScanSources(rows, others, from, to, now);
            && (forall id | id in rows :: id in r.rows && r.rows[id] == rows[id])
            && (forall id | id in r.rows && id !in rows :: r.rows[id].direction == Inbound && r.rows[id].asset != weth)
    decreases |others|
  {
    if others != [] {
      var first := ScanEvents(rows, others[0].events, others[0].asset, from, to, now);
      ScanFacts(rows, others[0].events, others[0].asset, from, to, now);
      hide ScanEvents;
      if first.done {
        OthersFacts(first.rows, others[1..], weth, from, to, now);
      }
    }
  }

  /** What a scanning cycle adds to the table is true, and a range is passed only when all its deposits have rows. */
  lemma ScanAdds(cfg: Config, e: EscrowView, chain: Snapshot, rows: map<Hash, Row>, others: seq<Source>, from: nat,
      to: nat, now: nat)
    requires RowsTrue(cfg, e, chain, rows) && (forall i :: 0 <= i < |others| ==> others[i].asset != cfg.weth)
    ensures var r := ScanSources(rows, [Source(e.events, cfg.weth)] + others, from, to, now);
            && RowsTrue(cfg, e, chain, r.rows) && rows.Keys <= r.rows.Keys
            && (r.done ==> forall i :: 0 <= i < |e.events| && from <= e.events[i].block <= to ==>
              e.events[i].id in r.rows)
  {
    hide ScanEvents, ScanSources, HasBurn;
    var sources := [Source(e.events, cfg.weth)] + others;
    var first := ScanEvents(rows, e.events, cfg.weth, from, to, now);
    ScanFacts(rows, e.events, cfg.weth, from, to, now);
    ScanFirst(rows, sources, from, to, now);
    assert sources[1..] == others;
    assert RowsTrue(cfg, e, chain, first.rows);
    OthersFacts(first.rows, others, cfg.weth, from, to, now);
  }

  lemma ScanKeeps(env: Env, cfg: Config, b: System, start: nat, others: seq<Source>, now: nat)
    requires SystemOk(cfg, b) && (forall i :: 0 <= i < |others| ==> others[i].asset != cfg.weth)
    ensures SystemOk(cfg, Next(env, cfg, b, ScanMove(start, others, now)))
  {
    hide CanonicalKey, KeyTotal, PendingBurns, PendingDeposits, RowsTrue, OutboxTrue, RecordsTrue, ScanSources,
         EventsMatch;
    var previous := if b.cursor.Some? then b.cursor.value else start;
    if b.head - cfg.confirmations >= previous {
      ScanAdds(cfg, b.world.escrow, b.chain, b.world.rows, others, previous, b.head - cfg.confirmations, now);
    }
  }

  lemma ScanFirst(rows: map<Hash, Row>, sources: seq<Source>, from: nat, to: nat, now: nat)
    requires sources != []
    ensures var first := ScanEvents(rows, sources[0].events, sources[0].asset, from, to, now);
            ScanSources(rows, sources, from, to, now) == if !first.done then first
              else ScanSources(first.rows, sources[1..], from, to, now)
  {
  }

  lemma {:induction false} BurnFacts(rows: map<Hash, Row>, records: seq<AssetOperation>, now: nat)
    ensures var r := ReadBurns(rows, records, now);
            && (forall id | id in rows :: id in r && r[id] == rows[id])
            && (forall id | id in r && id !in rows ::
                  exists o :: o in records && o.operationId == id && o.kind == BridgeBurn && r[id] == BurnRow(o, now))
    decreases |records|
  {
    hide CanonicalKey;
    if records != [] {
      var o, rest := records[0], records[1..];
      var hit := o.kind == BridgeBurn && |o.operationId.hex| == 64;
      var rows' := if hit then InsertOrIgnore(rows, o.operationId, BurnRow(o, now)) else rows;
      BurnFacts(rows', rest, now);
      var r := ReadBurns(rows, records, now);
      forall id | id in r && id !in rows
        ensures exists o :: o in records && o.operationId == id && o.kind == BridgeBurn && r[id] == BurnRow(o, now)
      {
        if id in rows' {
          assert o in records;
        } else {
          var p :| p in rest && p.operationId == id && p.kind == BridgeBurn && r[id] == BurnRow(p, now);
          assert p in records;
        }
      }
    }
  }

  lemma BurnsKeep(env: Env, cfg: Config, b: System, records: seq<AssetOperation>, now: nat)
    requires SystemOk(cfg, b) && Allowed(env, cfg, b, BurnsMove(records, now))
    ensures SystemOk(cfg, Next(env, cfg, b, BurnsMove(records, now)))
  {
    hide CanonicalKey, KeyTotal, PendingBurns, PendingDeposits, HasDeposit, OutboxTrue, EventsMatch;
    var rows := ReadBurns(b.world.rows, records, now);
    BurnFacts(b.world.rows, records, now);
    hide ReadBurns;
    forall id | id in rows ensures RowTrue(cfg, b.world.escrow, b.chain, id, rows[id]) {
      if id in b.world.rows {
        assert RowTrue(cfg, b.world.escrow, b.chain, id, b.world.rows[id]);
      } else {
        var o :| o in records && o.operationId == id && o.kind == BridgeBurn && rows[id] == BurnRow(o, now);
        assert RecordTrue(b.chain, id);
      }
    }
  }

  lemma MintedFromRow(cfg: Config, e: EscrowView, chain: Snapshot, id: Hash, row: Row)
    requires row.direction == Inbound && RowTrue(cfg, e, chain, id, row) && MintOf(cfg, id, row).Some?
    ensures MintTrue(cfg, e, MintOf(cfg, id, row).value)
  {
    hide HasDeposit, HasBurn;
    ParsePrintsBack(row.asset);
  }

  lemma AttemptKeeps(env: Env, cfg: Config, b: System, id: Hash, a: Answer, now: nat)
    requires GoodConfig(cfg) && SystemOk(cfg, b) && id in b.world.rows
    ensures SystemOk(cfg, Next(env, cfg, b, AttemptMove(id, a, now)))
  {
    hide CanonicalKey, KeyTotal, PendingBurns, PendingDeposits, HasDeposit, RecordsTrue, GoodConfig, MintOf,
         EventsMatch;
    var row := b.world.rows[id];
    assert RowTrue(cfg, b.world.escrow, b.chain, id, row);
    if row.direction == Inbound {
      if MintOf(cfg, id, row).Some? {
        MintedFromRow(cfg, b.world.escrow, b.chain, id, row);
      }
      RowStatusKeeps(cfg, b.world.escrow, b.chain, b.world.rows, id,
        Next(env, cfg, b, AttemptMove(id, a, now)).world.rows[id]);
      hide RowsTrue, RowTrue;
    } else {
      ReleaseAttemptKeeps(env, cfg, b, id, a, now);
    }
  }

  /** Bookkeeping on a row does not change what it says. */
  lemma RowStatusKeeps(cfg: Config, e: EscrowView, chain: Snapshot, rows: map<Hash, Row>, id: Hash, row: Row)
    requires RowsTrue(cfg, e, chain, rows) && id in rows
    requires row.direction == rows[id].direction && row.asset == rows[id].asset && row.amount == rows[id].amount
    ensures RowsTrue(cfg, e, chain, rows[id := row])
  {
    hide HasDeposit, HasBurn;
    assert RowTrue(cfg, e, chain, id, rows[id]);
    var changed := rows[id := row];
    forall x | x in changed ensures RowTrue(cfg, e, chain, x, changed[x]) {
      if x != id { assert RowTrue(cfg, e, chain, x, rows[x]); }
    }
  }

  lemma ReleaseAttemptKeeps(env: Env, cfg: Config, b: System, id: Hash, a: Answer, now: nat)
    requires SystemOk(cfg, b) && id in b.world.rows && b.world.rows[id].direction == Outbound
    ensures SystemOk(cfg, Next(env, cfg, b, AttemptMove(id, a, now)))
  {
    hide CanonicalKey, KeyTotal, PendingBurns, PendingDeposits, HasDeposit, RecordsTrue, IsEthereumAddress,
         IsZeroAddress, EventsMatch;
    var e, row := b.world.escrow, b.world.rows[id];
    var next := Next(env, cfg, b, AttemptMove(id, a, now));
    assert RowTrue(cfg, e, b.chain, id, row);
    RowStatusKeeps(cfg, e, b.chain, b.world.rows, id, next.world.rows[id]);
    ReleaseKeepsEvents(e, id, row.destination, row.amount, a.accepted);
    MoreDeposits(cfg, e, next.world.escrow, b.chain, next.world.rows, b.world.outbox);
  }

  lemma ReleaseKeepsEvents(e: EscrowView, id: Hash, recipient: string, amount: nat, accepts: bool)
    requires EventsMatch(e)
    ensures EventsMatch(Released(e, true, id, recipient, amount, accepts).escrow)
  {
  }

  lemma ConfirmKeeps(env: Env, cfg: Config, b: System, unreachable: set<Hash>, now: nat)
    requires SystemOk(cfg, b)
    ensures SystemOk(cfg, Next(env, cfg, b, ConfirmMove(unreachable, now)))
  {
    hide CanonicalKey, KeyTotal, PendingBurns, PendingDeposits, HasDeposit, HasBurn, RecordsTrue, OutboxTrue,
         EventsMatch;
    var rows := Confirmed(b.world.rows, b.chain.assets.processed, unreachable, now);
    forall id | id in rows ensures RowTrue(cfg, b.world.escrow, b.chain, id, rows[id]) {
      assert RowTrue(cfg, b.world.escrow, b.chain, id, b.world.rows[id]);
    }
  }

  /* ---------- the chain moves ---------- */

  /** Which parts of the asset book an operation changes, whatever its outcome: a bridge operation is recorded as
      soon as it passes the checks before its first write. */
  lemma BookedRecords(env: Env, s: Snapshot, op: Op)
    ensures var s' := Apply(env, s, op).state;
            if op.Bridge? && Replay.BridgeChecked(s, op.asset) then
              op.asset.operationId !in s.assets.processed && op.asset.amount > 0
              && s'.assets.processed == s.assets.processed + {op.asset.operationId}
              && s'.assets.records == s.assets.records[op.asset.operationId := op.asset]
            else s'.assets.processed == s.assets.processed && s'.assets.records == s.assets.records
  {
    match op
    case Transfer(tx) => TransferWrites(env, s, tx);
    case Bridge(o) => hide CanonicalKey, IsSupportedUsdc;
    case Token(o) => TokenWrites(env, s, o, env.tokenOpId(o.unsigned));
    case Swap(o) => SwapWrites(env, s, o);
    case Reserve(o) => ReserveWrites(env, s, o);
    case Program(o, height) => ProgramWrites(env, s, o, height);
    case Credit(a, amount) =>
  }

  /** A bridge operation is applied only past those checks, and a burn of WETH past them fails for one reason. */
  lemma BridgeOutcome(env: Env, cfg: Config, s: Snapshot, o: AssetOperation)
    requires GoodConfig(cfg)
    ensures var outcome := Apply(env, s, Bridge(o)).outcome;
            && (outcome == Done(true) ==> Replay.BridgeChecked(s, o))
            && (o.kind == BridgeBurn && CanonicalKey(o.assetId) == cfg.weth && Replay.BridgeChecked(s, o) ==>
                  outcome == if UnheldBurn(cfg, s, Bridge(o)) then Failed(InsufficientAssetBalance) else Done(true))
  {
    hide CanonicalKey, IsSupportedUsdc, IsWethText;
    if IsSupportedUsdc(o.assetId) {
      WethIsNotUsdc(cfg.weth, o.assetId);
    }
  }

  /** Whatever the outcome of an operation, it takes from the slack if and only if it is a burn that is recorded
      without being held. Mints use up deposits, held burns become pending. */
  lemma ChainKeepsSlackExactly(env: Env, cfg: Config, b: System, op: Op)
    requires GoodConfig(cfg) && SystemOk(cfg, b) && MintsAreRelayed(cfg, b.world, op)
    ensures Slack(cfg, Next(env, cfg, b, ChainMove(op))) >= Slack(cfg, b) <==> !TakesBacking(cfg, b, op)
    ensures UnheldBurn(cfg, b.chain, op) ==>
              Slack(cfg, Next(env, cfg, b, ChainMove(op)))
              == Slack(cfg, b) + DepositedUnder(b.world.escrow.events, op.asset.operationId) - op.asset.amount
  {
    hide CanonicalKey, PendingBurns, PendingDeposits, KeyTotal, IsWethText, RowsTrue, Covered;
    var s, e := b.chain, b.world.escrow;
    StepMovesWeth(env, s, op, cfg.weth);
    BookedRecords(env, s, op);
    if op.Bridge? {
      var o := op.asset;
      BridgeOutcome(env, cfg, s, o);
      hide Apply;
      if Replay.BridgeChecked(s, op.asset) {
        assert o.operationId in s.assets.records ==> RecordTrue(s, o.operationId);
        BurnRecorded(s.assets.records, e.releases, cfg.weth, o);
        PendingMarked(e.events, s.assets.processed, o.operationId);
        if o.kind == BridgeMint && CanonicalKey(o.assetId) == cfg.weth {
          assert MintTrue(cfg, e, o);
          var i :| 0 <= i < |e.events| && e.events[i].id == o.operationId && e.events[i].amount == o.amount;
          DepositCounts(e.events, i);
        }
      }
    }
  }

  lemma RecordsStay(env: Env, cfg: Config, s: Snapshot, op: Op)
    requires RecordsTrue(s)
    ensures RecordsTrue(Apply(env, s, op).state)
  {
    BookedRecords(env, s, op);
    hide CanonicalKey, Apply;
    var s' := Apply(env, s, op).state;
    forall id | id in s'.assets.records ensures RecordTrue(s', id) {
      if id in s.assets.records { assert RecordTrue(s, id); }
    }
  }

  lemma RowsStay(env: Env, cfg: Config, e: EscrowView, s: Snapshot, op: Op, rows: map<Hash, Row>)
    requires RecordsTrue(s) && RowsTrue(cfg, e, s, rows)
    ensures RowsTrue(cfg, e, Apply(env, s, op).state, rows)
    ensures s.assets.records.Keys <= Apply(env, s, op).state.assets.records.Keys
  {
    BookedRecords(env, s, op);
    hide CanonicalKey, Apply, HasDeposit;
    var s' := Apply(env, s, op).state;
    forall id | id in rows ensures RowTrue(cfg, e, s', id, rows[id]) {
      assert RowTrue(cfg, e, s, id, rows[id]);
      assert id in s.assets.records ==> RecordTrue(s, id);
    }
  }

  lemma ChainKeeps(env: Env, cfg: Config, b: System, op: Op)
    requires GoodConfig(cfg) && SystemOk(cfg, b) && Allowed(env, cfg, b, ChainMove(op))
    ensures SystemOk(cfg, Next(env, cfg, b, ChainMove(op)))
  {
    hide CanonicalKey, Apply, OutboxTrue, EventsMatch, Covered, RowsTrue, RecordsTrue, MintsAreRelayed;
    RecordsStay(env, cfg, b.chain, op);
    RowsStay(env, cfg, b.world.escrow, b.chain, op, b.world.rows);
  }

  /* ---------- runs ---------- */

  lemma NextKeeps(env: Env, cfg: Config, b: System, m: Move)
    requires GoodConfig(cfg) && SystemOk(cfg, b) && Allowed(env, cfg, b, m)
    ensures SystemOk(cfg, Next(env, cfg, b, m))
  {
    hide RowsTrue, OutboxTrue, RecordsTrue, GoodConfig, PendingBurns, PendingDeposits, KeyTotal, EventsMatch, IsDue;
    match m
    case UserDeposit(id, value, destination) => DepositKeeps(env, cfg, b, id, value, destination);
    case PlainTransfer(value) =>
      MoreDeposits(cfg, b.world.escrow, Received(b.world.escrow, value), b.chain, b.world.rows, b.world.outbox);
      TransferKeepsEvents(b.world.escrow, value);
    case NewBlock =>
    case ScanMove(start, others, now) => ScanKeeps(env, cfg, b, start, others, now);
    case OtherDeposit(id, row) => OtherKeeps(cfg, b.world.escrow, b.chain, b.world.rows, id, row);
    case BurnsMove(records, now) => BurnsKeep(env, cfg, b, records, now);
    case AttemptMove(id, answer, now) => AttemptKeeps(env, cfg, b, id, answer, now);
    case ConfirmMove(unreachable, now) => ConfirmKeeps(env, cfg, b, unreachable, now);
    case ChainMove(op) => ChainKeeps(env, cfg, b, op);
  }

  lemma TransferKeepsEvents(e: EscrowView, value: nat)
    requires EventsMatch(e)
    ensures EventsMatch(Received(e, value))
  {
  }

  lemma OtherKeeps(cfg: Config, e: EscrowView, chain: Snapshot, rows: map<Hash, Row>, id: Hash, row: Row)
    requires RowsTrue(cfg, e, chain, rows) && row.direction == Inbound && row.asset != cfg.weth
    ensures RowsTrue(cfg, e, chain, InsertOrIgnore(rows, id, row))
  {
    hide HasDeposit, HasBurn;
  }

  ghost predicate AllowedRun(env: Env, cfg: Config, b: System, moves: seq<Move>)
    decreases |moves|
  {
    moves != [] ==> Allowed(env, cfg, b, moves[0]) && AllowedRun(env, cfg, Next(env, cfg, b, moves[0]), moves[1..])
  }

  ghost function After(env: Env, cfg: Config, b: System, moves: seq<Move>): System
    requires AllowedRun(env, cfg, b, moves)
    decreases |moves|
  {
    if moves == [] then b else After(env, cfg, Next(env, cfg, b, moves[0]), moves[1..])
  }

  lemma NoMoves(env: Env, cfg: Config, b: System)
    ensures AllowedRun(env, cfg, b, []) && After(env, cfg, b, []) == b
  {
  }

  lemma RunStep(env: Env, cfg: Config, b: System, m: Move, rest: seq<Move>)
    requires Allowed(env, cfg, b, m) && AllowedRun(env, cfg, Next(env, cfg, b, m), rest)
    ensures AllowedRun(env, cfg, b, [m] + rest)
    ensures After(env, cfg, b, [m] + rest) == After(env, cfg, Next(env, cfg, b, m), rest)
  {
    hide Next, MintsAreRelayed;
    assert ([m] + rest)[0] == m && ([m] + rest)[1..] == rest;
  }

  lemma {:induction false} RunKeeps(env: Env, cfg: Config, b: System, moves: seq<Move>)
    requires GoodConfig(cfg) && SystemOk(cfg, b) && AllowedRun(env, cfg, b, moves)
    ensures SystemOk(cfg, After(env, cfg, b, moves))
    decreases |moves|
  {
    hide SystemOk, GoodConfig, Next;
    if moves != [] {
      NextKeeps(env, cfg, b, moves[0]);
      RunKeeps(env, cfg, Next(env, cfg, b, moves[0]), moves[1..]);
    }
  }

  /** Nothing deposited, nothing on the chain. */
  function StartSystem(head: nat, chainId: string, feeMinimum: u128, accounts: map<Address, Account>): System {
    System(World(map[], EMPTY_ESCROW, {}), None, 0, head, GenesisState(chainId, feeMinimum, accounts))
  }

  lemma StartIsOk(cfg: Config, head: nat, chainId: string, feeMinimum: u128, accounts: map<Address, Account>)
    ensures SystemOk(cfg, StartSystem(head, chainId, feeMinimum, accounts))
    ensures Slack(cfg, StartSystem(head, chainId, feeMinimum, accounts)) == 0
  {
    var b := StartSystem(head, chainId, feeMinimum, accounts);
    TotalEmpty(b.chain.assets.balances, HoldingOf(cfg.weth));
    assert UnreleasedBurns(b.chain.assets.records, b.world.escrow.releases, cfg.weth) == map[];
  }
}
