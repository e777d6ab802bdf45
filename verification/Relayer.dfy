/** The relayer between the escrow contract and the chain: an idempotent table of operations, a scan cursor, and
    attempts that may fail, time out or be reported as failed after they took effect. */
module Relayer {
  import opened Wrappers
  import opened Core
  import opened Arithmetic
  import opened Escrow

  datatype Direction = Inbound | Outbound
  datatype Status = Detected | Retry | MintSubmitted | ReleaseSubmitted | Completed

  datatype Row = Row(
    direction: Direction, status: Status, asset: string, address: string, destination: string, amount: nat,
    external: string, sourceBlock: nat, attempts: nat, nextAttempt: nat, createdAt: nat)

  /** Asset texts, confirmation depth, and the address parser of the chain's interface. */
  datatype Config = Config(weth: string, solMna: string, confirmations: nat, parseAddress: string -> Option<Address>)

  const ROW_LIMIT := 50

  /* ---------- discovering ---------- */

  function InsertOrIgnore(rows: map<Hash, Row>, id: Hash, row: Row): map<Hash, Row> {
    if id in rows then rows else rows[id := row]
  }

  datatype Source = Source(events: seq<DepositEvent>, asset: string)

  function DepositRow(e: DepositEvent, asset: string, now: nat): Row
    requires e.destination.Some?
  {
    Row(Inbound, Detected, asset, e.destination.value, e.destination.value, e.amount, "", e.block, 0, 0, now)
  }

  /** `done` is false when a destination could not be decoded; the rows before it stay. */
  datatype Scan = Scan(rows: map<Hash, Row>, done: bool)

  function ScanEvents(rows: map<Hash, Row>, events: seq<DepositEvent>, asset: string, from: nat, to: nat,
      now: nat): Scan
    decreases |events|
  {
    if events == [] then Scan(rows, true)
    else
      var e := events[0];
      if !(from <= e.block <= to) then ScanEvents(rows, events[1..], asset, from, to, now)
      else if e.destination.None? then Scan(rows, false)
      else ScanEvents(InsertOrIgnore(rows, e.id, DepositRow(e, asset, now)), events[1..], asset, from, to, now)
  }

  function ScanSources(rows: map<Hash, Row>, sources: seq<Source>, from: nat, to: nat, now: nat): Scan
    decreases |sources|
  {
    if sources == [] then Scan(rows, true)
    else
      var first := ScanEvents(rows, sources[0].events, sources[0].asset, from, to, now);
      if !first.done then first else ScanSources(first.rows, sources[1..], from, to, now)
  }

  function BurnRow(o: AssetOperation, now: nat): Row {
    Row(Outbound, Detected, CanonicalKey(o.assetId), o.address.text, o.destination, o.amount, o.externalTransaction,
        0, 0, 0, now)
  }

  /** The chain's bridge records, of which only burns concern the escrow. */
  function ReadBurns(rows: map<Hash, Row>, records: seq<AssetOperation>, now: nat): map<Hash, Row>
    decreases |records|
  {
    if records == [] then rows
    else
      var o := records[0];
      if o.kind != BridgeBurn || |o.operationId.hex| != 64 then ReadBurns(rows, records[1..], now)
      else ReadBurns(InsertOrIgnore(rows, o.operationId, BurnRow(o, now)), records[1..], now)
  }

  datatype Book = Book(rows: map<Hash, Row>, cursor: Option<nat>)

  /** The scanning part of one cycle: the cursor moves only past ranges that were read completely. */
  function ScanCycle(b: Book, start: nat, tip: nat, confirmations: nat, sources: seq<Source>, now: nat): Book {
    var previous := if b.cursor.Some? then b.cursor.value else start;
    if tip - confirmations < previous then b.(cursor := Some(previous))
    else
      var scan := ScanSources(b.rows, sources, previous, tip - confirmations, now);
      Book(scan.rows, Some(if scan.done then tip - confirmations + 1 else previous))
  }

  /** Whether that part came through: an unreadable deposit ends the cycle. */
  function ScanDone(b: Book, start: nat, tip: nat, confirmations: nat, sources: seq<Source>, now: nat): bool {
    var previous := if b.cursor.Some? then b.cursor.value else start;
    tip - confirmations >= previous ==> ScanSources(b.rows, sources, previous, tip - confirmations, now).done
  }

  /* ---------- attempts ---------- */

  predicate IsHexDigit(c: char) {
    '0' <= c <= '9' || 'a' <= c <= 'f' || 'A' <= c <= 'F'
  }

  predicate IsEthereumAddress(s: string) {
    |s| == 42 && s[0] == '0' && s[1] == 'x' && forall i :: 2 <= i < |s| ==> IsHexDigit(s[i])
  }

  const WSOL_PREFIX := "solana:WSOL:"

  /** Everything an attempt can touch: the table, the contract, and what the chain was asked to mint. */
  datatype World = World(rows: map<Hash, Row>, escrow: EscrowView, outbox: set<AssetOperation>)

  /** What happened to the call, and whether the relayer was told that it succeeded. */
  datatype Answer = Answer(delivered: bool, accepted: bool, acknowledged: bool)

  /** The mint the chain's interface builds from a row, if it can read it. */
  function MintOf(cfg: Config, id: Hash, row: Row): Option<AssetOperation> {
    var asset, address := ParseAssetId(row.asset), cfg.parseAddress(row.address);
    if asset.None? || address.None? || row.amount == 0 || row.amount > U128_MAX then None
    else Some(AssetOperation(1, id, BridgeMint, asset.value, address.value, row.address, row.amount, row.external,
                             "ethereum deposit relayed"))
  }

  datatype Tried = Tried(world: World, ok: bool)

  function TryMint(cfg: Config, w: World, id: Hash, row: Row, a: Answer): Tried {
    if row.asset == cfg.solMna then Tried(w, a.acknowledged)
    else
      var mint := MintOf(cfg, id, row);
      if mint.None? || !a.delivered then Tried(w, false)
      else Tried(w.(outbox := w.outbox + {mint.value}), a.acknowledged)
  }

  /** Every burn except those of wrapped SOL is released from this one contract. */
  function TryRelease(w: World, id: Hash, row: Row, a: Answer): Tried {
    if WSOL_PREFIX <= row.asset then Tried(w, a.acknowledged)
    else if !IsEthereumAddress(row.destination) || !a.delivered then Tried(w, false)
    else
      var called := Released(w.escrow, true, id, row.destination, row.amount, a.accepted);
      Tried(w.(escrow := called.escrow), called.result.Ok? && a.acknowledged)
  }

  function Min(a: nat, b: nat): nat {
    if a < b then a else b
  }

  function MarkedError(row: Row, now: nat): Row {
    row.(status := Retry, attempts := row.attempts + 1, nextAttempt := now + Min(3600, Pow2(Min(row.attempts + 1, 10))))
  }

  predicate IsDue(row: Row, now: nat) {
    (row.status == Detected || row.status == Retry) && row.nextAttempt <= now
  }

  function Attempt(cfg: Config, w: World, id: Hash, a: Answer, now: nat): World
    requires id in w.rows
  {
    var row := w.rows[id];
    var tried := if row.direction == Inbound then TryMint(cfg, w, id, row, a) else TryRelease(w, id, row, a);
    var row' := if !tried.ok then MarkedError(row, now)
                else row.(status := if row.direction == Inbound then MintSubmitted else ReleaseSubmitted);
    tried.world.(rows := w.rows[id := row'])
  }

  /** The rows one cycle takes: the fifty oldest due ones, oldest first, or all of them if there are fewer. */
  predicate Picked(rows: map<Hash, Row>, ids: seq<Hash>, now: nat) {
    && |ids| <= ROW_LIMIT
    && (forall i :: 0 <= i < |ids| ==> ids[i] in rows && IsDue(rows[ids[i]], now))
    && (forall i, j :: 0 <= i < j < |ids| ==> ids[i] != ids[j] && rows[ids[i]].createdAt <= rows[ids[j]].createdAt)
    && (forall id | id in rows && IsDue(rows[id], now) && id !in ids ::
          |ids| == ROW_LIMIT && rows[ids[ROW_LIMIT - 1]].createdAt <= rows[id].createdAt)
  }

  /** `answers`: what happens to the call for a row. */
  function Attempts(cfg: Config, w: World, ids: seq<Hash>, answers: Hash -> Answer, now: nat): World
    requires forall i :: 0 <= i < |ids| ==> ids[i] in w.rows
    decreases |ids|
  {
    if ids == [] then w else Attempts(cfg, Attempt(cfg, w, ids[0], answers(ids[0]), now), ids[1..], answers, now)
  }

  predicate IsOldest(rows: map<Hash, Row>, ids: set<Hash>, id: Hash)
    requires ids <= rows.Keys
  {
    id in ids && forall x | x in ids :: rows[id].createdAt <= rows[x].createdAt
  }

  lemma {:induction false} OldestExists(rows: map<Hash, Row>, ids: set<Hash>)
    requires ids != {} && ids <= rows.Keys
    ensures exists id :: IsOldest(rows, ids, id)
  {
    var id :| id in ids;
    if ids != {id} {
      OldestExists(rows, ids - {id});
      var y :| IsOldest(rows, ids - {id}, y);
      assert IsOldest(rows, ids, if rows[y].createdAt <= rows[id].createdAt then y else id);
    } else {
      assert IsOldest(rows, ids, id);
    }
  }

  /** A submitted mint completes when the chain has it, and is retried when the chain cannot be asked; a submitted
      release already happened. */
  function ConfirmedRow(row: Row, id: Hash, processed: set<Hash>, unreachable: set<Hash>, now: nat): Row {
    if row.status == ReleaseSubmitted then row.(status := Completed)
    else if row.status != MintSubmitted then row
    else if id in unreachable then MarkedError(row, now)
    else if id in processed then row.(status := Completed)
    else row
  }

  function Confirmed(rows: map<Hash, Row>, processed: set<Hash>, unreachable: set<Hash>, now: nat): map<Hash, Row> {
    map id | id in rows :: ConfirmedRow(rows[id], id, processed, unreachable, now)
  }

  class RelayerProcess {
    const cfg: Config
    const contract: WethBridge
    var rows: map<Hash, Row>
    var cursor: Option<nat>
    var outbox: set<AssetOperation>

    constructor (cfg: Config, contract: WethBridge, b: Book)
      ensures this.cfg == cfg && this.contract == contract && View() == b && outbox == {}
    {
      this.cfg, this.contract, rows, cursor, outbox := cfg, contract, b.rows, b.cursor, {};
    }

    function View(): Book
      reads this
    {
      Book(rows, cursor)
    }

    function Reach(): World
      reads this, contract
    {
      World(rows, contract.View(), outbox)
    }

    method DiscoverDeposits(sources: seq<Source>, from: nat, to: nat, now: nat) returns (done: bool)
      modifies this`rows
      ensures Scan(rows, done) == ScanSources(old(rows), sources, from, to, now)
    {
      for i := 0 to |sources|
        invariant ScanSources(rows, sources[i..], from, to, now) == ScanSources(old(rows), sources, from, to, now)
      {
        assert sources[i..][1..] == sources[i + 1..];
        done := DiscoverIn(sources[i], from, to, now);
        if !done {
          return false;
        }
      }
      return true;
    }

    method DiscoverIn(source: Source, from: nat, to: nat, now: nat) returns (done: bool)
      modifies this`rows
      ensures Scan(rows, done) == ScanEvents(old(rows), source.events, source.asset, from, to, now)
    {
      var events := source.events;
      for i := 0 to |events|
        invariant ScanEvents(rows, events[i..], source.asset, from, to, now)
                  == ScanEvents(old(rows), events, source.asset, from, to, now)
      {
        assert events[i..][1..] == events[i + 1..];
        var e := events[i];
        if from <= e.block <= to {
          if e.destination.None? {
            return false;
          }
          rows := InsertOrIgnore(rows, e.id, DepositRow(e, source.asset, now));
        }
      }
      return true;
    }

    method DiscoverBurns(records: seq<AssetOperation>, now: nat)
      modifies this`rows
      ensures rows == ReadBurns(old(rows), records, now)
    {
      for i := 0 to |records|
        invariant ReadBurns(rows, records[i..], now) == ReadBurns(old(rows), records, now)
      {
        assert records[i..][1..] == records[i + 1..];
        var o := records[i];
        if o.kind == BridgeBurn && |o.operationId.hex| == 64 {
          rows := InsertOrIgnore(rows, o.operationId, BurnRow(o, now));
        }
      }
    }

    method ScanChain(start: nat, tip: nat, sources: seq<Source>, now: nat) returns (done: bool)
      modifies this
      ensures View() == ScanCycle(old(View()), start, tip, cfg.confirmations, sources, now)
      ensures done == ScanDone(old(View()), start, tip, cfg.confirmations, sources, now)
      ensures outbox == old(outbox)
    {
      done := true;
      if cursor.None? {
        cursor := Some(start);
      }
      var previous := cursor.value;
      if tip - cfg.confirmations >= previous {
        done := DiscoverDeposits(sources, previous, tip - cfg.confirmations, now);
        if done {
          cursor := Some(tip - cfg.confirmations + 1);
        }
      }
    }

    /** One turn of the main loop. If the scan fails, nothing else of the turn happens. */
    method RunCycle(start: nat, tip: nat, sources: seq<Source>, records: seq<AssetOperation>,
        answers: Hash -> Answer, processed: set<Hash>, unreachable: set<Hash>, now: nat)
        returns (done: bool, ids: seq<Hash>)
      modifies this, contract
      ensures done == ScanDone(old(View()), start, tip, cfg.confirmations, sources, now)
      ensures var scanned := ScanCycle(old(View()), start, tip, cfg.confirmations, sources, now);
              var w := World(ReadBurns(scanned.rows, records, now), old(contract.View()), old(outbox));
              if !done then View() == scanned && outbox == old(outbox) && contract.View() == old(contract.View())
              else
                && cursor == scanned.cursor && Picked(w.rows, ids, now)
                && var tried := Attempts(cfg, w, ids, answers, now);
                   Reach() == tried.(rows := Confirmed(tried.rows, processed, unreachable, now))
    {
      ids := [];
      done := ScanChain(start, tip, sources, now);
      if !done {
        return;
      }
      DiscoverBurns(records, now);
      ids := ProcessOperations(answers, now);
      ConfirmSubmitted(processed, unreachable, now);
    }

    method SelectDue(now: nat) returns (ids: seq<Hash>)
      ensures Picked(rows, ids, now)
    {
      hide IsDue;
      var due := set id | id in rows && IsDue(rows[id], now);
      ids := [];
      while due != {} && |ids| < ROW_LIMIT
        invariant |ids| <= ROW_LIMIT
        invariant forall i :: 0 <= i < |ids| ==> ids[i] in rows && IsDue(rows[ids[i]], now) && ids[i] !in due
        invariant forall i, j :: 0 <= i < j < |ids| ==>
                    ids[i] != ids[j] && rows[ids[i]].createdAt <= rows[ids[j]].createdAt
        invariant forall id | id in due :: id in rows && IsDue(rows[id], now)
        invariant forall id | id in rows && IsDue(rows[id], now) :: id in due || id in ids
        invariant forall i, id | 0 <= i < |ids| && id in due :: rows[ids[i]].createdAt <= rows[id].createdAt
        decreases |due|
      {
        OldestExists(rows, due);
        var id :| id in due && IsOldest(rows, due, id);
        ids := ids + [id];
        due := due - {id};
      }
    }

    method ProcessOperations(answers: Hash -> Answer, now: nat) returns (ids: seq<Hash>)
      modifies this`rows, this`outbox, contract
      ensures Picked(old(rows), ids, now)
      ensures Reach() == Attempts(cfg, old(Reach()), ids, answers, now)
    {
      ids := SelectDue(now);
      for i := 0 to |ids|
        invariant forall j :: 0 <= j < |ids| ==> ids[j] in rows
        invariant Attempts(cfg, Reach(), ids[i..], answers, now) == Attempts(cfg, old(Reach()), ids, answers, now)
      {
        assert ids[i..][1..] == ids[i + 1..];
        AttemptOne(ids[i], answers(ids[i]), now);
      }
    }

    method AttemptOne(id: Hash, a: Answer, now: nat)
      requires id in rows
      modifies this`rows, this`outbox, contract
      ensures Reach() == Attempt(cfg, old(Reach()), id, a, now)
    {
      hide ParseAssetId;
      var row := rows[id];
      var ok := false;
      if row.direction == Inbound {
        if row.asset == cfg.solMna {
          ok := a.acknowledged;
        } else {
          var mint := MintOf(cfg, id, row);
          if mint.Some? && a.delivered {
            outbox := outbox + {mint.value};
            ok := a.acknowledged;
          }
        }
      } else if WSOL_PREFIX <= row.asset {
        ok := a.acknowledged;
      } else if IsEthereumAddress(row.destination) && a.delivered {
        var r := contract.Release(true, id, row.destination, row.amount, a.accepted);
        ok := r.Ok? && a.acknowledged;
      }
      if ok {
        rows := rows[id := row.(status := if row.direction == Inbound then MintSubmitted else ReleaseSubmitted)];
      } else {
        rows := rows[id := MarkedError(row, now)];
      }
    }

    method ConfirmSubmitted(processed: set<Hash>, unreachable: set<Hash>, now: nat)
      modifies this`rows
      ensures rows == Confirmed(old(rows), processed, unreachable, now)
    {
      var todo := rows.Keys;
      while todo != {}
        invariant todo <= rows.Keys == old(rows).Keys
        invariant forall id | id in rows ::
                    rows[id] == if id in todo then old(rows)[id]
                      else ConfirmedRow(old(rows)[id], id, processed, unreachable, now)
        decreases |todo|
      {
        var id :| id in todo;
        rows := rows[id := ConfirmedRow(rows[id], id, processed, unreachable, now)];
        todo := todo - {id};
      }
    }
  }
}
