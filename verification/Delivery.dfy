/** What the relayer reports as done has been done: a submitted mint is on its way to the depositor's address, a
    submitted release has been paid to the destination of its burn. */
module Delivery {
  import opened Wrappers
  import opened Core
  import opened Arithmetic
  import opened Ledger
  import opened Frames
  import Replay
  import Effects
  import opened WrappedEther
  import opened Escrow
  import opened Relayer
  import opened BridgeSystem
  import opened DepositRows

  /* ---------- one attempt ---------- */

  /** The mint that a row asks for. */
  predicate MintsRow(cfg: Config, o: AssetOperation, id: Hash, row: Row) {
    && o.version == 1 && o.kind == BridgeMint && o.operationId == id && o.amount == row.amount > 0
    && ParseAssetId(row.asset) == Some(o.assetId) && cfg.parseAddress(row.address) == Some(o.address)
  }

  predicate Sent(cfg: Config, outbox: set<AssetOperation>, id: Hash, row: Row) {
    exists o | o in outbox :: MintsRow(cfg, o, id, row)
  }

  predicate Paid(e: EscrowView, id: Hash, row: Row) {
    id in e.releases && Payment(id, row.destination, row.amount) in e.payments
  }

  /** Whether the chain's interface can read a row as a mint. */
  predicate Readable(cfg: Config, row: Row) {
    ParseAssetId(row.asset).Some? && cfg.parseAddress(row.address).Some? && 0 < row.amount <= U128_MAX
  }

  /** An inbound row is reported submitted exactly if it could be read, and the call was delivered and acknowledged; and
      then the mint it asks for has been sent. Otherwise it is put back. */
  lemma AttemptSendsMint(cfg: Config, w: World, id: Hash, a: Answer, now: nat)
    requires id in w.rows && w.rows[id].direction == Inbound && w.rows[id].asset != cfg.solMna
    ensures var w' := Attempt(cfg, w, id, a, now);
            && w'.escrow == w.escrow && w'.rows.Keys == w.rows.Keys
            && (w'.rows[id].status == MintSubmitted <==> Readable(cfg, w.rows[id]) && a.delivered && a.acknowledged)
            && (w'.rows[id].status != MintSubmitted ==> w'.rows[id].status == Retry && w'.rows[id].nextAttempt > now)
            && (Readable(cfg, w.rows[id]) && a.delivered ==> Sent(cfg, w'.outbox, id, w'.rows[id]))
            && forall o | o in w'.outbox :: o in w.outbox || (a.delivered && MintsRow(cfg, o, id, w.rows[id]))
  {
    hide ParseAssetId;
    var row := w.rows[id];
    if Readable(cfg, row) {
      assert MintsRow(cfg, MintOf(cfg, id, row).value, id, row);
    }
  }

  /** An outbound row that goes to this contract is reported submitted exactly if its destination is an address, the call
      was delivered and acknowledged, and the contract paid; and then the contract has paid that destination. */
  lemma AttemptPaysRelease(cfg: Config, w: World, id: Hash, a: Answer, now: nat)
    requires id in w.rows && w.rows[id].direction == Outbound && ReleasedInEther(w.rows[id].asset)
    ensures var row, w' := w.rows[id], Attempt(cfg, w, id, a, now);
            var called := Released(w.escrow, true, id, row.destination, row.amount, a.accepted);
            && w'.outbox == w.outbox && w'.rows.Keys == w.rows.Keys
            && (w'.rows[id].status == ReleaseSubmitted <==>
                  IsEthereumAddress(row.destination) && a.delivered && called.result.Ok? && a.acknowledged)
            && (w'.rows[id].status != ReleaseSubmitted ==>
                  w'.rows[id].status == Retry && w'.rows[id].nextAttempt > now)
            && (IsEthereumAddress(row.destination) && a.delivered && called.result.Ok? ==> Paid(w'.escrow, id, row))
            && forall p | p in w'.escrow.payments ::
                 p in w.escrow.payments || p == Payment(id, row.destination, row.amount)
  {
    hide IsEthereumAddress, IsZeroAddress;
  }

  /** Putting a row back doubles the wait from two seconds on, up to 1024 after the tenth failure; the hour in the limit is
      never reached. Until then the row is not due. */
  lemma PutBackWaits(row: Row, now: nat, later: nat)
    ensures var r := MarkedError(row, now);
            var wait, next := r.nextAttempt - now, MarkedError(r, later).nextAttempt - later;
            && r.status == Retry && r.attempts == row.attempts + 1
            && (row.attempts == 0 ==> wait == 2) && (row.attempts >= 9 ==> wait == 1024)
            && next == (if row.attempts < 9 then 2 * wait else wait) && 0 < wait <= 1024
            && forall t | now <= t < r.nextAttempt :: !IsDue(r, t)
  {
    PowUpTo(Min(row.attempts + 1, 10));
    PowUpTo(10);
  }

  lemma {:induction false} PowUpTo(n: nat)
    requires n <= 10
    ensures Pow2(n) <= 1024 && Pow2(n + 1) == 2 * Pow2(n) && (n == 1 ==> Pow2(n) == 2) && (n == 10 ==> Pow2(n) == 1024)
    ensures Pow2(n) <= Mul(2, Pow2(n))
  {
    assert Pow2(0) == 1 && Pow2(1) == 2 && Pow2(2) == 4 && Pow2(3) == 8 && Pow2(4) == 16 && Pow2(5) == 32;
    assert Pow2(6) == 64 && Pow2(7) == 128 && Pow2(8) == 256 && Pow2(9) == 512 && Pow2(10) == 1024;
  }

  /* ---------- the table over every run ---------- */

  /** What a row reports has happened. */
  predicate RowDone(cfg: Config, w: World, processed: set<Hash>, id: Hash, row: Row) {
    match row.status
    case Detected => true
    case Retry => true
    case MintSubmitted => row.direction == Inbound && (row.asset != cfg.solMna ==> Sent(cfg, w.outbox, id, row))
    case ReleaseSubmitted => row.direction == Outbound && (ReleasedInEther(row.asset) ==> Paid(w.escrow, id, row))
    case Completed =>
      if row.direction == Inbound then
        id in processed && (row.asset != cfg.solMna ==> Sent(cfg, w.outbox, id, row))
      else ReleasedInEther(row.asset) ==> Paid(w.escrow, id, row)
  }

  ghost predicate RowsDone(cfg: Config, b: System) {
    forall id | id in b.world.rows :: RowDone(cfg, b.world, b.chain.assets.processed, id, b.world.rows[id])
  }

  /** The deposit a row is about, destination included. */
  predicate NamesDeposit(e: EscrowView, id: Hash, row: Row) {
    && row.address == row.destination
    && exists i :: 0 <= i < |e.events| && e.events[i].id == id && e.events[i].amount == row.amount
         && e.events[i].destination == Some(row.destination)
  }

  /** The recorded burn a row is about, destination included. */
  predicate NamesBurn(chain: Snapshot, id: Hash, row: Row) {
    && id in chain.assets.records
    && var o := chain.assets.records[id];
       o.kind == BridgeBurn && CanonicalKey(o.assetId) == row.asset && o.amount == row.amount
       && o.destination == row.destination && o.address.text == row.address
  }

  predicate RowNamed(cfg: Config, e: EscrowView, chain: Snapshot, id: Hash, row: Row) {
    if row.direction == Inbound then row.asset == cfg.weth ==> NamesDeposit(e, id, row) else NamesBurn(chain, id, row)
  }

  ghost predicate RowsNamed(cfg: Config, b: System) {
    forall id | id in b.world.rows :: RowNamed(cfg, b.world.escrow, b.chain, id, b.world.rows[id])
  }

  /** A payment is for a recorded burn: its amount, to its destination. */
  predicate PaymentNamed(chain: Snapshot, p: Payment) {
    && p.id in chain.assets.records
    && var o := chain.assets.records[p.id];
       o.kind == BridgeBurn && ReleasedInEther(CanonicalKey(o.assetId)) && o.amount == p.amount
       && o.destination == p.recipient
  }

  ghost predicate PaymentsNamed(b: System) {
    forall p | p in b.world.escrow.payments :: PaymentNamed(b.chain, p)
  }

  ghost predicate AllDelivered(cfg: Config, b: System) {
    SystemOk(cfg, b) && PaymentsMatch(b.world.escrow) && RowsDone(cfg, b) && RowsNamed(cfg, b) && PaymentsNamed(b)
  }

  /** Rows of other sources of deposits start like those of this contract. */
  predicate StartsDetected(m: Move) {
    m.OtherDeposit? ==> m.row.status == Detected
  }

  /** Nothing that was sent, paid, logged or recorded goes away. */
  ghost predicate Grows(b: System, c: System) {
    && b.world.outbox <= c.world.outbox && b.world.escrow.releases <= c.world.escrow.releases
    && b.world.escrow.events <= c.world.escrow.events && b.world.escrow.payments <= c.world.escrow.payments
    && b.chain.assets.processed <= c.chain.assets.processed
    && (forall id | id in b.chain.assets.records ::
          id in c.chain.assets.records && c.chain.assets.records[id] == b.chain.assets.records[id])
  }

  lemma MoveGrows(env: Env, cfg: Config, b: System, m: Move)
    requires SystemOk(cfg, b) && Allowed(env, cfg, b, m)
    ensures Grows(b, Next(env, cfg, b, m))
  {
    hide CanonicalKey, ScanCycle, ReadBurns, Apply, MintOf, MintsAreRelayed, RowsTrue, OutboxTrue, EventsMatch, Covered,
         IsEthereumAddress, IsZeroAddress, Confirmed;
    if m.ChainMove? {
      BookedRecords(env, b.chain, m.op);
      assert forall id | id in b.chain.assets.records :: RecordTrue(b.chain, id);
    }
  }

  lemma RowDoneStays(cfg: Config, b: System, c: System, id: Hash, row: Row)
    requires Grows(b, c) && RowDone(cfg, b.world, b.chain.assets.processed, id, row)
    ensures RowDone(cfg, c.world, c.chain.assets.processed, id, row)
  {
    hide MintsRow, ReleasedInEther;
  }

  lemma RowNamedStays(cfg: Config, b: System, c: System, id: Hash, row: Row, row': Row)
    requires Grows(b, c) && RowNamed(cfg, b.world.escrow, b.chain, id, row) && SameDeal(row, row')
    ensures RowNamed(cfg, c.world.escrow, c.chain, id, row')
  {
    hide CanonicalKey;
    if row.direction == Inbound && row.asset == cfg.weth {
      var e, e' := b.world.escrow, c.world.escrow;
      var i :| 0 <= i < |e.events| && e.events[i].id == id && e.events[i].amount == row.amount
        && e.events[i].destination == Some(row.destination);
      assert e'.events[i] == e.events[i];
    }
  }

  /* ---------- new rows ---------- */

  predicate FromEvent(events: seq<DepositEvent>, asset: string, now: nat, id: Hash, row: Row) {
    exists i :: 0 <= i < |events| && events[i].id == id && events[i].destination.Some?
      && row == DepositRow(events[i], asset, now)
  }

  lemma {:induction false} ScannedRows(rows: map<Hash, Row>, events: seq<DepositEvent>, asset: string, from: nat,
      to: nat, now: nat)
    ensures var r := ScanEvents(rows, events, asset, from, to, now);
            forall id | id in r.rows && id !in rows :: FromEvent(events, asset, now, id, r.rows[id])
    ensures var r := ScanEvents(rows, events, asset, from, to, now);
            forall id | id in rows :: id in r.rows && r.rows[id] == rows[id]
    decreases |events|
  {
    if events != [] {
      var e, rest := events[0], events[1..];
      var hit := from <= e.block <= to && e.destination.Some?;
      var rows' := if hit then InsertOrIgnore(rows, e.id, DepositRow(e, asset, now)) else rows;
      ScannedRows(rows', rest, asset, from, to, now);
      var r := ScanEvents(rows, events, asset, from, to, now);
      forall id | id in r.rows && id !in rows ensures FromEvent(events, asset, now, id, r.rows[id]) {
        if id in rows' {
          assert events[0].id == id;
        } else {
          var i :| 0 <= i < |rest| && rest[i].id == id && rest[i].destination.Some?
            && r.rows[id] == DepositRow(rest[i], asset, now);
          assert events[i + 1] == rest[i];
        }
      }
    }
  }

  lemma {:induction false} OtherRows(rows: map<Hash, Row>, others: seq<Source>, weth: string, from: nat, to: nat,
      now: nat)
    requires forall i :: 0 <= i < |others| ==> others[i].asset != weth
    ensures var r := ScanSources(rows, others, from, to, now);
            && (forall id | id in rows :: id in r.rows && r.rows[id] == rows[id])
            && forall id | id in r.rows && id !in rows ::
                 r.rows[id].direction == Inbound && r.rows[id].asset != weth && r.rows[id].status == Detected
    decreases |others|
  {
    if others != [] {
      var first := ScanEvents(rows, others[0].events, others[0].asset, from, to, now);
      ScannedRows(rows, others[0].events, others[0].asset, from, to, now);
      hide ScanEvents;
      if first.done {
        OtherRows(first.rows, others[1..], weth, from, to, now);
      }
    }
  }

  /** A row that a move writes is newly detected, and is a deposit to this contract, a deposit elsewhere, or a recorded
      burn. */
  predicate NewRow(cfg: Config, b: System, id: Hash, row: Row) {
    && row.status == Detected
    && RowNamed(cfg, b.world.escrow, b.chain, id, row)
  }

  lemma ScanWritesNewRows(env: Env, cfg: Config, b: System, start: nat, others: seq<Source>, now: nat)
    requires forall i :: 0 <= i < |others| ==> others[i].asset != cfg.weth
    ensures var rows := Next(env, cfg, b, ScanMove(start, others, now)).world.rows;
            && (forall id | id in b.world.rows :: id in rows && rows[id] == b.world.rows[id])
            && forall id | id in rows && id !in b.world.rows :: NewRow(cfg, b, id, rows[id])
  {
    hide ScanEvents, ScanSources, CanonicalKey;
    var from := ScanStart(b, start);
    if b.head - cfg.confirmations >= from {
      var to := b.head - cfg.confirmations;
      var events := b.world.escrow.events;
      var sources := [Source(events, cfg.weth)] + others;
      var first := ScanEvents(b.world.rows, events, cfg.weth, from, to, now);
      ScannedRows(b.world.rows, events, cfg.weth, from, to, now);
      ScanFirst(b.world.rows, sources, from, to, now);
      assert sources[1..] == others;
      OtherRows(first.rows, others, cfg.weth, from, to, now);
      forall id | id in first.rows && id !in b.world.rows ensures NewRow(cfg, b, id, first.rows[id]) {
        var i :| 0 <= i < |events| && events[i].id == id && events[i].destination.Some?
          && first.rows[id] == DepositRow(events[i], cfg.weth, now);
      }
    }
  }

  lemma BurnsWriteNewRows(env: Env, cfg: Config, b: System, records: seq<AssetOperation>, now: nat)
    requires Allowed(env, cfg, b, BurnsMove(records, now))
    ensures var rows := Next(env, cfg, b, BurnsMove(records, now)).world.rows;
            && (forall id | id in b.world.rows :: id in rows && rows[id] == b.world.rows[id])
            && forall id | id in rows && id !in b.world.rows :: NewRow(cfg, b, id, rows[id])
  {
    BurnFacts(b.world.rows, records, now);
    hide ReadBurns, CanonicalKey;
  }

  /* ---------- every move ---------- */

  lemma AttemptDelivers(env: Env, cfg: Config, b: System, id: Hash, a: Answer, now: nat)
    requires AllDelivered(cfg, b) && Allowed(env, cfg, b, AttemptMove(id, a, now))
    ensures var c := Next(env, cfg, b, AttemptMove(id, a, now));
            && RowsDone(cfg, c) && PaymentsNamed(c) && PaymentsMatch(c.world.escrow)
  {
    var c, row := Next(env, cfg, b, AttemptMove(id, a, now)), b.world.rows[id];
    MoveGrows(env, cfg, b, AttemptMove(id, a, now));
    hide SystemOk, Grows, IsDue, IsEthereumAddress, IsZeroAddress, CanonicalKey, MintOf, Readable;
    assert RowDone(cfg, c.world, c.chain.assets.processed, id, c.world.rows[id])
        && PaymentsNamed(c) && PaymentsMatch(c.world.escrow) by {
      AttemptDone(env, cfg, b, id, a, now);
    }
    forall x | x in c.world.rows ensures RowDone(cfg, c.world, c.chain.assets.processed, x, c.world.rows[x]) {
      if x != id {
        assert c.world.rows[x] == b.world.rows[x];
        RowDoneStays(cfg, b, c, x, b.world.rows[x]);
      }
    }
  }

  lemma AttemptDone(env: Env, cfg: Config, b: System, id: Hash, a: Answer, now: nat)
    requires AllDelivered(cfg, b) && id in b.world.rows
    ensures var c := Next(env, cfg, b, AttemptMove(id, a, now));
            && RowDone(cfg, c.world, c.chain.assets.processed, id, c.world.rows[id])
            && PaymentsNamed(c) && PaymentsMatch(c.world.escrow)
  {
    hide SystemOk, RowsDone, IsEthereumAddress, IsZeroAddress, CanonicalKey, MintOf, Readable, MintsRow;
    var c, row := Next(env, cfg, b, AttemptMove(id, a, now)), b.world.rows[id];
    assert RowNamed(cfg, b.world.escrow, b.chain, id, row);
    hide RowsNamed;
    if row.direction == Inbound {
      if row.asset != cfg.solMna { AttemptSendsMint(cfg, b.world, id, a, now); }
    } else if ReleasedInEther(row.asset) {
      AttemptPaysRelease(cfg, b.world, id, a, now);
      ReleaseKeepsPayments(b.world.escrow, true, id, row.destination, row.amount, a.accepted);
      hide PaymentsMatch, Released;
    }
  }

  lemma ConfirmDelivers(env: Env, cfg: Config, b: System, unreachable: set<Hash>, now: nat)
    requires RowsDone(cfg, b)
    ensures RowsDone(cfg, Next(env, cfg, b, ConfirmMove(unreachable, now)))
  {
    hide MintsRow, ReleasedInEther;
    var c := Next(env, cfg, b, ConfirmMove(unreachable, now));
    forall id | id in c.world.rows ensures RowDone(cfg, c.world, c.chain.assets.processed, id, c.world.rows[id]) {
      var row := b.world.rows[id];
      assert RowDone(cfg, b.world, b.chain.assets.processed, id, row);
      SentIgnoresStatus(cfg, b.world.outbox, id, row, c.world.rows[id]);
    }
  }

  lemma SentIgnoresStatus(cfg: Config, outbox: set<AssetOperation>, id: Hash, row: Row, row': Row)
    requires row'.asset == row.asset && row'.address == row.address && row'.amount == row.amount
    ensures Sent(cfg, outbox, id, row) <==> Sent(cfg, outbox, id, row')
  {
    assert forall o :: MintsRow(cfg, o, id, row) <==> MintsRow(cfg, o, id, row');
  }

  lemma NewRowsDeliver(env: Env, cfg: Config, b: System, m: Move)
    requires AllDelivered(cfg, b) && Allowed(env, cfg, b, m) && StartsDetected(m)
    requires m.ScanMove? || m.BurnsMove? || m.OtherDeposit?
    ensures RowsDone(cfg, Next(env, cfg, b, m))
  {
    var c := Next(env, cfg, b, m);
    if m.ScanMove? {
      ScanWritesNewRows(env, cfg, b, m.start, m.others, m.now);
    } else if m.BurnsMove? {
      BurnsWriteNewRows(env, cfg, b, m.records, m.now);
    }
    hide SystemOk, RowsNamed, ScanCycle, ReadBurns, RowNamed, Sent, Paid, CanonicalKey, RowDone;
    forall id | id in c.world.rows ensures RowDone(cfg, c.world, c.chain.assets.processed, id, c.world.rows[id]) {
      if id in b.world.rows {
        assert RowDone(cfg, b.world, b.chain.assets.processed, id, b.world.rows[id]);
        assert c.world.outbox == b.world.outbox && c.world.escrow == b.world.escrow && c.chain == b.chain;
        RowDoneSame(cfg, b.world, c.world, b.chain.assets.processed, id, b.world.rows[id]);
      } else {
        assert c.world.rows[id].status == Detected;
        NothingDoneYet(cfg, c.world, c.chain.assets.processed, id, c.world.rows[id]);
      }
    }
  }

  lemma NothingDoneYet(cfg: Config, w: World, processed: set<Hash>, id: Hash, row: Row)
    requires row.status == Detected
    ensures RowDone(cfg, w, processed, id, row)
  {
  }

  lemma RowDoneSame(cfg: Config, w: World, v: World, processed: set<Hash>, id: Hash, row: Row)
    requires w.outbox == v.outbox && w.escrow == v.escrow && RowDone(cfg, w, processed, id, row)
    ensures RowDone(cfg, v, processed, id, row)
  {
    hide Sent, Paid, ReleasedInEther;
  }

  lemma MoveNames(env: Env, cfg: Config, b: System, m: Move)
    requires AllDelivered(cfg, b) && Allowed(env, cfg, b, m) && StartsDetected(m)
    ensures RowsNamed(cfg, Next(env, cfg, b, m))
  {
    var c := Next(env, cfg, b, m);
    MoveGrows(env, cfg, b, m);
    MoveKeepsDeals(env, cfg, b, m);
    if m.ScanMove? {
      ScanWritesNewRows(env, cfg, b, m.start, m.others, m.now);
    } else if m.BurnsMove? {
      BurnsWriteNewRows(env, cfg, b, m.records, m.now);
    } else {
      NoOtherRows(env, cfg, b, m);
    }
    hide SystemOk, RowsDone, Grows, RowNamed, SameDeal, Next, Allowed;
    forall id | id in c.world.rows ensures RowNamed(cfg, c.world.escrow, c.chain, id, c.world.rows[id]) {
      if id in b.world.rows {
        RowNamedStays(cfg, b, c, id, b.world.rows[id], c.world.rows[id]);
      } else {
        assert RowNamed(cfg, b.world.escrow, b.chain, id, c.world.rows[id]);
        SameDealAsItself(c.world.rows[id]);
        RowNamedStays(cfg, b, c, id, c.world.rows[id], c.world.rows[id]);
      }
    }
  }

  lemma SameDealAsItself(row: Row)
    ensures SameDeal(row, row)
  {
  }

  lemma NoOtherRows(env: Env, cfg: Config, b: System, m: Move)
    requires Allowed(env, cfg, b, m) && StartsDetected(m) && !m.ScanMove? && !m.BurnsMove?
    ensures forall id | id in Next(env, cfg, b, m).world.rows && id !in b.world.rows ::
              NewRow(cfg, b, id, Next(env, cfg, b, m).world.rows[id])
  {
    hide CanonicalKey, Apply, MintOf, Released, MintsAreRelayed;
  }

  /** Every move of the bridge leaves what the table reports true, every row named after its deposit or burn, and every
      payment matched with a recorded burn. */
  lemma NextDelivers(env: Env, cfg: Config, b: System, m: Move)
    requires GoodConfig(cfg) && AllDelivered(cfg, b) && Allowed(env, cfg, b, m) && StartsDetected(m)
    ensures AllDelivered(cfg, Next(env, cfg, b, m))
  {
    NextKeeps(env, cfg, b, m);
    MoveNames(env, cfg, b, m);
    hide SystemOk, RowsNamed, GoodConfig;
    match m
    case AttemptMove(id, a, now) => AttemptDelivers(env, cfg, b, id, a, now);
    case ConfirmMove(unreachable, now) => ConfirmDelivers(env, cfg, b, unreachable, now);
    case ScanMove(start, others, now) => NewRowsDeliver(env, cfg, b, m);
    case OtherDeposit(id, row) => NewRowsDeliver(env, cfg, b, m);
    case BurnsMove(records, now) => NewRowsDeliver(env, cfg, b, m);
    case UserDeposit(id, value, destination) => SameTableDelivers(env, cfg, b, m);
    case PlainTransfer(value) => SameTableDelivers(env, cfg, b, m);
    case NewBlock => SameTableDelivers(env, cfg, b, m);
    case ChainMove(op) => SameTableDelivers(env, cfg, b, m);
  }

  lemma SameTableDelivers(env: Env, cfg: Config, b: System, m: Move)
    requires AllDelivered(cfg, b) && Allowed(env, cfg, b, m)
    requires m.UserDeposit? || m.PlainTransfer? || m.NewBlock? || m.ChainMove?
    ensures var c := Next(env, cfg, b, m); RowsDone(cfg, c) && PaymentsNamed(c) && PaymentsMatch(c.world.escrow)
  {
    MoveGrows(env, cfg, b, m);
    var c := Next(env, cfg, b, m);
    assert c.world.rows == b.world.rows && c.world.escrow.payments == b.world.escrow.payments
        && c.world.escrow.releases == b.world.escrow.releases;
    hide Next, SystemOk, RowsNamed, RowDone, CanonicalKey, Allowed;
    forall id | id in c.world.rows ensures RowDone(cfg, c.world, c.chain.assets.processed, id, c.world.rows[id]) {
      RowDoneStays(cfg, b, c, id, b.world.rows[id]);
    }
    forall p | p in c.world.escrow.payments ensures PaymentNamed(c.chain, p) {
      assert PaymentNamed(b.chain, p);
    }
  }

  lemma {:induction false} RunDelivers(env: Env, cfg: Config, b: System, moves: seq<Move>)
    requires GoodConfig(cfg) && AllDelivered(cfg, b) && AllowedRun(env, cfg, b, moves)
    requires forall m | m in moves :: StartsDetected(m)
    ensures AllDelivered(cfg, After(env, cfg, b, moves))
    decreases |moves|
  {
    hide AllDelivered, GoodConfig, Next, MintsAreRelayed, StartsDetected;
    if moves != [] {
      NextDelivers(env, cfg, b, moves[0]);
      RunDelivers(env, cfg, Next(env, cfg, b, moves[0]), moves[1..]);
    }
  }

  lemma StartDelivers(cfg: Config, head: nat, chainId: string, feeMinimum: u128, accounts: map<Address, Account>)
    ensures AllDelivered(cfg, StartSystem(head, chainId, feeMinimum, accounts))
  {
    StartIsOk(cfg, head, chainId, feeMinimum, accounts);
    hide SystemOk;
  }

  /* ---------- what a user can rely on ---------- */

  /** The mint that serves a deposit: its amount of this very asset, to the address that its destination reads as. */
  predicate Serves(cfg: Config, o: AssetOperation, e: DepositEvent) {
    && o.version == 1 && o.kind == BridgeMint && o.operationId == e.id && o.amount == e.amount > 0
    && ParseAssetId(cfg.weth) == Some(o.assetId) && e.destination.Some?
    && cfg.parseAddress(e.destination.value) == Some(o.address)
  }

  lemma MintServes(cfg: Config, o: AssetOperation, id: Hash, row: Row, e: DepositEvent)
    requires row.asset == cfg.weth && MintsRow(cfg, o, id, row) && row.address == row.destination
    requires e.id == id && e.amount == row.amount && e.destination == Some(row.destination)
    ensures Serves(cfg, o, e)
  {
    hide ParseAssetId;
  }

  /** Whatever interleaving of deposits, scans, retries, mints, burns and releases: whenever the relayer reports a deposit
      of ether as submitted or completed, the mint that serves it has been sent, and if completed the chain has marked its
      identity; whenever it reports a release as submitted or completed, the contract has paid it, once, in the amount and
      to the destination of the recorded burn; and it has paid nothing else. */
  lemma WhatIsReportedIsDone(env: Env, cfg: Config, head: nat, chainId: string, feeMinimum: u128,
      accounts: map<Address, Account>, moves: seq<Move>)
    requires GoodConfig(cfg) && AllowedRun(env, cfg, StartSystem(head, chainId, feeMinimum, accounts), moves)
    requires forall m | m in moves :: StartsDetected(m)
    ensures var b := After(env, cfg, StartSystem(head, chainId, feeMinimum, accounts), moves);
            var w := b.world;
            && (forall id | id in w.rows && w.rows[id].direction == Inbound && w.rows[id].asset == cfg.weth
                  && (w.rows[id].status == MintSubmitted || w.rows[id].status == Completed) ::
                  && (exists o, e | o in w.outbox && e in w.escrow.events :: e.id == id && Serves(cfg, o, e))
                  && (w.rows[id].status == Completed ==> id in b.chain.assets.processed))
            && (forall id | id in w.rows && w.rows[id].direction == Outbound && ReleasedInEther(w.rows[id].asset)
                  && (w.rows[id].status == ReleaseSubmitted || w.rows[id].status == Completed) ::
                  Payment(id, w.rows[id].destination, w.rows[id].amount) in w.escrow.payments)
            && (forall p | p in w.escrow.payments :: PaymentNamed(b.chain, p))
            && (forall i, j :: 0 <= i < j < |w.escrow.payments| ==> w.escrow.payments[i].id != w.escrow.payments[j].id)
  {
    var start := StartSystem(head, chainId, feeMinimum, accounts);
    StartDelivers(cfg, head, chainId, feeMinimum, accounts);
    assert cfg.solMna != cfg.weth;
    hide After, AllowedRun, StartSystem, SystemOk, GoodConfig;
    RunDelivers(env, cfg, start, moves);
    var b := After(env, cfg, start, moves);
    var w := b.world;
    hide CanonicalKey, MintsRow, Serves, ReleasedInEther;
    forall id | id in w.rows && w.rows[id].direction == Inbound && w.rows[id].asset == cfg.weth
        && (w.rows[id].status == MintSubmitted || w.rows[id].status == Completed)
      ensures exists o, e | o in w.outbox && e in w.escrow.events :: e.id == id && Serves(cfg, o, e)
      ensures w.rows[id].status == Completed ==> id in b.chain.assets.processed
    {
      var row := w.rows[id];
      assert RowDone(cfg, w, b.chain.assets.processed, id, row) && RowNamed(cfg, w.escrow, b.chain, id, row);
      var o :| o in w.outbox && MintsRow(cfg, o, id, row);
      var i :| 0 <= i < |w.escrow.events| && w.escrow.events[i].id == id && w.escrow.events[i].amount == row.amount
        && w.escrow.events[i].destination == Some(row.destination);
      MintServes(cfg, o, id, row, w.escrow.events[i]);
    }
    forall id | id in w.rows && w.rows[id].direction == Outbound && ReleasedInEther(w.rows[id].asset)
        && (w.rows[id].status == ReleaseSubmitted || w.rows[id].status == Completed)
      ensures Payment(id, w.rows[id].destination, w.rows[id].amount) in w.escrow.payments
    {
      assert RowDone(cfg, w, b.chain.assets.processed, id, w.rows[id]);
    }
  }

  /** The chain applies such a mint exactly if its identity is new and the balance has room, and then the depositor's
      address has the amount more of wrapped ether, and no other holding has moved. */
  lemma ServedDepositIsCredited(env: Env, cfg: Config, s: Snapshot, o: AssetOperation, e: DepositEvent)
    requires GoodConfig(cfg) && Serves(cfg, o, e)
    ensures var step := Apply(env, s, Bridge(o));
            var to := cfg.parseAddress(e.destination.value).value;
            && (step.outcome == Done(true) <==>
                  e.id !in s.assets.processed && AssetBalance(s, to, cfg.weth) + e.amount <= U128_MAX)
            && (step.outcome == Done(true) ==>
                  forall a, key :: AssetBalance(step.state, a, key)
                    == AssetBalance(s, a, key) + (if a == to && key == cfg.weth then e.amount else 0))
  {
    ParsePrintsBack(cfg.weth);
    MintIsNotUsdc(cfg, o.assetId);
    hide ParseAssetId, IsWethText, CanonicalKey, IsSupportedUsdc, AssetBalance;
    ForeignMintApplies(s, o);
    if Apply(env, s, Bridge(o)).outcome == Done(true) {
      Effects.AppliedMovesHoldings(env, s, Bridge(o));
      hide Apply;
    }
  }

  lemma ForeignMintApplies(s: Snapshot, o: AssetOperation)
    requires o.version == 1 && o.kind == BridgeMint && o.amount > 0 && !IsSupportedUsdc(o.assetId)
    requires o.assetId.namespace != "worldstreet" && o.assetId.contract.Some?
    ensures ApplyAssetOperation(s, o).outcome == Done(true) <==>
            o.operationId !in s.assets.processed
            && AssetBalance(s, o.address, CanonicalKey(o.assetId)) + o.amount <= U128_MAX
  {
    hide CanonicalKey, IsSupportedUsdc;
  }

  lemma MintIsNotUsdc(cfg: Config, id: AssetId)
    requires GoodConfig(cfg) && ParseAssetId(cfg.weth) == Some(id)
    ensures !IsSupportedUsdc(id) && id.namespace != "worldstreet" && id.contract.Some?
  {
    hide IsSepoliaUsdc, IsDevnetUsdc, FirstColon, ExternalDecimals;
  }
}
