/** What keeps the relayer from moving: a deposit it cannot read, and a mint the chain has lost. */
module RelayerStalls {
  import opened Wrappers
  import opened Core
  import opened Ledger
  import opened Escrow
  import opened Relayer
  import opened BridgeSystem
  import opened DepositRows

  /* ---------- deposits that cannot be read ---------- */

  /** Every deposit of the range has a destination that is text. */
  predicate Readable(events: seq<DepositEvent>, from: nat, to: int) {
    forall i :: 0 <= i < |events| && from <= events[i].block <= to ==> events[i].destination.Some?
  }

  predicate AllReadable(sources: seq<Source>, from: nat, to: int) {
    forall k :: 0 <= k < |sources| ==> Readable(sources[k].events, from, to)
  }

  lemma {:induction false} EventsDoneExactly(rows: map<Hash, Row>, events: seq<DepositEvent>, asset: string, from: nat,
      to: nat, now: nat)
    ensures ScanEvents(rows, events, asset, from, to, now).done <==> Readable(events, from, to)
    decreases |events|
  {
    if events != [] {
      var e := events[0];
      assert Readable(events, from, to) <==>
             (from <= e.block <= to ==> e.destination.Some?) && Readable(events[1..], from, to) by {
        assert events == [e] + events[1..];
      }
      EventsDoneExactly(rows, events[1..], asset, from, to, now);
      if e.destination.Some? {
        EventsDoneExactly(InsertOrIgnore(rows, e.id, DepositRow(e, asset, now)), events[1..], asset, from, to, now);
      }
    }
  }

  /** A scan comes through if and only if every deposit of its range can be read, whatever the table holds. */
  lemma {:induction false} ScanDoneExactly(rows: map<Hash, Row>, sources: seq<Source>, from: nat, to: nat, now: nat)
    ensures ScanSources(rows, sources, from, to, now).done <==> AllReadable(sources, from, to)
    decreases |sources|
  {
    hide ScanEvents, Readable;
    if sources != [] {
      EventsDoneExactly(rows, sources[0].events, sources[0].asset, from, to, now);
      var first := ScanEvents(rows, sources[0].events, sources[0].asset, from, to, now);
      ScanDoneExactly(first.rows, sources[1..], from, to, now);
      assert sources == [sources[0]] + sources[1..];
    }
  }

  /** The cursor after a cycle, and whether the cycle did its work. */
  datatype Turn = Turn(cursor: nat, works: bool)

  function TurnOf(sources: seq<Source>, cursor: nat, safeTip: int): Turn {
    if safeTip < cursor then Turn(cursor, true)
    else if AllReadable(sources, cursor, safeTip) then Turn(safeTip + 1, true)
    else Turn(cursor, false)
  }

  /** That is what the relayer does, whatever is in its table. */
  lemma CycleTurns(b: Book, start: nat, tip: nat, confirmations: nat, sources: seq<Source>, now: nat)
    ensures var turn := TurnOf(sources, if b.cursor.Some? then b.cursor.value else start, tip - confirmations);
            && ScanCycle(b, start, tip, confirmations, sources, now).cursor == Some(turn.cursor)
            && ScanDone(b, start, tip, confirmations, sources, now) == turn.works
  {
    hide ScanSources, AllReadable;
    var previous := if b.cursor.Some? then b.cursor.value else start;
    if tip - confirmations >= previous {
      ScanDoneExactly(b.rows, sources, previous, tip - confirmations, now);
    }
  }

  /** The cursor after many cycles; the deposits of the scanned part of the chain do not change. */
  function CursorAfter(sources: seq<Source>, cursor: nat, safeTips: seq<int>): nat
    decreases |safeTips|
  {
    if safeTips == [] then cursor
    else CursorAfter(sources, TurnOf(sources, cursor, safeTips[0]).cursor, safeTips[1..])
  }

  lemma ReadableJoins(sources: seq<Source>, from: nat, middle: nat, to: int)
    requires from <= middle <= to + 1 && AllReadable(sources, from, middle - 1)
    ensures AllReadable(sources, from, to) <==> AllReadable(sources, middle, to)
  {
    if AllReadable(sources, middle, to) {
      forall k | 0 <= k < |sources| ensures Readable(sources[k].events, from, to) {
        assert Readable(sources[k].events, from, middle - 1) && Readable(sources[k].events, middle, to);
      }
    }
    if AllReadable(sources, from, to) {
      forall k | 0 <= k < |sources| ensures Readable(sources[k].events, middle, to) {
        assert Readable(sources[k].events, from, to);
      }
    }
  }

  /** Some cycle saw the target, and everything up to its own safe tip could be read. */
  predicate Reached(sources: seq<Source>, from: nat, safeTips: seq<int>, target: nat) {
    exists k :: 0 <= k < |safeTips| && safeTips[k] >= target && AllReadable(sources, from, safeTips[k])
  }

  /** The cursor has passed a block if and only if some cycle saw it and could read every deposit, of all sources, from
      the start up to its own safe tip. */
  lemma {:induction false} CursorPassesExactly(sources: seq<Source>, start: nat, cursor: nat, safeTips: seq<int>,
      target: nat)
    requires start <= cursor <= target && AllReadable(sources, start, cursor - 1)
    ensures CursorAfter(sources, cursor, safeTips) > target <==> Reached(sources, start, safeTips, target)
    decreases |safeTips|
  {
    hide AllReadable;
    if safeTips != [] {
      var to, turn, rest := safeTips[0], TurnOf(sources, cursor, safeTips[0]), safeTips[1..];
      if to >= cursor {
        ReadableJoins(sources, start, cursor, to);
      }
      if turn.cursor > target {
        CursorGrows(sources, turn.cursor, rest);
        assert Reached(sources, start, safeTips, target);
      } else {
        CursorPassesExactly(sources, start, turn.cursor, rest, target);
        ReachedSplits(sources, start, safeTips, target);
      }
    }
  }

  lemma ReachedSplits(sources: seq<Source>, from: nat, safeTips: seq<int>, target: nat)
    requires safeTips != []
    ensures Reached(sources, from, safeTips, target) <==>
            (safeTips[0] >= target && AllReadable(sources, from, safeTips[0]))
            || Reached(sources, from, safeTips[1..], target)
  {
    hide AllReadable;
    if Reached(sources, from, safeTips, target) {
      var k :| 0 <= k < |safeTips| && safeTips[k] >= target && AllReadable(sources, from, safeTips[k]);
      assert k > 0 ==> safeTips[1..][k - 1] == safeTips[k];
    }
    if Reached(sources, from, safeTips[1..], target) {
      var k :| 0 <= k < |safeTips[1..]| && safeTips[1..][k] >= target && AllReadable(sources, from, safeTips[1..][k]);
      assert safeTips[k + 1] == safeTips[1..][k];
    }
  }

  lemma {:induction false} CursorGrows(sources: seq<Source>, cursor: nat, safeTips: seq<int>)
    ensures CursorAfter(sources, cursor, safeTips) >= cursor
    decreases |safeTips|
  {
    hide AllReadable;
    if safeTips != [] {
      CursorGrows(sources, TurnOf(sources, cursor, safeTips[0]).cursor, safeTips[1..]);
    }
  }

  /** One deposit whose destination is not text: once it is old enough to be scanned, no cycle reads a burn, attempts a
      row or confirms one, and the cursor stays where it is. */
  lemma {:induction false} UnreadableDepositStalls(sources: seq<Source>, cursor: nat, safeTips: seq<int>, k: nat,
      i: nat)
    requires k < |sources| && i < |sources[k].events| && sources[k].events[i].destination.None?
    requires cursor <= sources[k].events[i].block
    requires forall j :: 0 <= j < |safeTips| ==> safeTips[j] >= sources[k].events[i].block
    ensures CursorAfter(sources, cursor, safeTips) == cursor
    ensures forall j :: 0 <= j < |safeTips| ==> !TurnOf(sources, cursor, safeTips[j]).works
    decreases |safeTips|
  {
    forall to: int | to >= sources[k].events[i].block ensures !AllReadable(sources, cursor, to) {
      assert !Readable(sources[k].events, cursor, to);
    }
    if safeTips != [] {
      UnreadableDepositStalls(sources, cursor, safeTips[1..], k, i);
      forall j | 0 <= j < |safeTips| ensures !TurnOf(sources, cursor, safeTips[j]).works {
        assert j > 0 ==> safeTips[j] == safeTips[1..][j - 1];
      }
    }
  }

  /* ---------- mints the chain has lost ---------- */

  /** A submitted mint completes exactly when the chain says so, is retried exactly when the chain cannot be asked, and
      otherwise waits as it is. */
  lemma SubmittedMintMoves(row: Row, id: Hash, processed: set<Hash>, unreachable: set<Hash>, now: nat)
    requires row.status == MintSubmitted
    ensures var next := ConfirmedRow(row, id, processed, unreachable, now);
            && (next.status == Completed <==> id in processed && id !in unreachable)
            && (next.status == Retry <==> id in unreachable)
            && (next == row <==> id !in processed && id !in unreachable)
  {
  }

  /** A cycle settles the row: it asks for it and learns that the chain has it, or cannot ask. */
  predicate Settles(b: System, m: Move, id: Hash) {
    m.ConfirmMove? && (id in b.chain.assets.processed || id in m.unreachable)
  }

  /** No cycle of the run does. */
  ghost predicate NeverSettled(env: Env, cfg: Config, b: System, moves: seq<Move>, id: Hash)
    requires AllowedRun(env, cfg, b, moves)
    decreases |moves|
  {
    moves != [] ==> !Settles(b, moves[0], id) && NeverSettled(env, cfg, Next(env, cfg, b, moves[0]), moves[1..], id)
  }

  predicate Submitted(b: System, id: Hash) {
    id in b.world.rows && b.world.rows[id].direction == Inbound && b.world.rows[id].status == MintSubmitted
  }

  /** What a settled row never leaves: it is complete, or it has been put back more often than it was. */
  predicate Settled(b: System, id: Hash, before: Row) {
    id in b.world.rows && (b.world.rows[id].status == Completed || b.world.rows[id].attempts > before.attempts)
  }

  lemma SubmittedStep(env: Env, cfg: Config, b: System, m: Move, id: Hash)
    requires Allowed(env, cfg, b, m) && Submitted(b, id)
    ensures var c := Next(env, cfg, b, m);
            && id in c.world.rows && (c.world.rows[id] == b.world.rows[id] <==> !Settles(b, m, id))
            && (Settles(b, m, id) ==> Settled(c, id, b.world.rows[id]))
  {
    hide CanonicalKey, ScanEvents, ScanSources, ReadBurns, Apply, MintOf, MintsAreRelayed;
    match m
    case ScanMove(start, others, now) =>
      if b.head - cfg.confirmations >= ScanStart(b, start) {
        ScanKeepsRows(cfg, b.world.rows, b.world.escrow.events, others, ScanStart(b, start),
                      b.head - cfg.confirmations, now);
      }
    case BurnsMove(records, now) => BurnFacts(b.world.rows, records, now);
    case _ =>
  }

  lemma SettledStays(env: Env, cfg: Config, b: System, m: Move, id: Hash, before: Row)
    requires Allowed(env, cfg, b, m) && Settled(b, id, before)
    ensures Settled(Next(env, cfg, b, m), id, before)
  {
    hide CanonicalKey, ScanEvents, ScanSources, ReadBurns, Apply, MintOf, MintsAreRelayed;
    match m
    case ScanMove(start, others, now) =>
      if b.head - cfg.confirmations >= ScanStart(b, start) {
        ScanKeepsRows(cfg, b.world.rows, b.world.escrow.events, others, ScanStart(b, start),
                      b.head - cfg.confirmations, now);
      }
    case BurnsMove(records, now) => BurnFacts(b.world.rows, records, now);
    case _ =>
  }

  lemma {:induction false} RunKeepsSettled(env: Env, cfg: Config, b: System, moves: seq<Move>, id: Hash, before: Row)
    requires AllowedRun(env, cfg, b, moves) && Settled(b, id, before)
    ensures Settled(After(env, cfg, b, moves), id, before)
    decreases |moves|
  {
    hide Next, MintsAreRelayed, Settled;
    if moves != [] {
      SettledStays(env, cfg, b, moves[0], id, before);
      RunKeepsSettled(env, cfg, Next(env, cfg, b, moves[0]), moves[1..], id, before);
    }
  }

  /** After any run a submitted mint is exactly the row it was if and only if no cycle has settled it: nothing else ever
      touches it, and above all nothing sends it again. */
  lemma {:induction false} SubmittedMintWaitsExactly(env: Env, cfg: Config, b: System, moves: seq<Move>, id: Hash)
    requires AllowedRun(env, cfg, b, moves) && Submitted(b, id)
    ensures var c := After(env, cfg, b, moves);
            id in c.world.rows && (c.world.rows[id] == b.world.rows[id] <==> NeverSettled(env, cfg, b, moves, id))
    decreases |moves|
  {
    hide Next, MintsAreRelayed, Settles;
    if moves != [] {
      var c, before := Next(env, cfg, b, moves[0]), b.world.rows[id];
      SubmittedStep(env, cfg, b, moves[0], id);
      if Settles(b, moves[0], id) {
        RunKeepsSettled(env, cfg, c, moves[1..], id, before);
      } else {
        SubmittedMintWaitsExactly(env, cfg, c, moves[1..], id);
      }
    }
  }

  lemma {:induction false} ProcessedGrows(env: Env, cfg: Config, b: System, moves: seq<Move>)
    requires AllowedRun(env, cfg, b, moves)
    ensures b.chain.assets.processed <= After(env, cfg, b, moves).chain.assets.processed
    decreases |moves|
  {
    hide MintsAreRelayed, Apply, ScanCycle, ReadBurns, Attempt, Confirmed;
    if moves != [] {
      if moves[0].ChainMove? {
        BookedRecords(env, b.chain, moves[0].op);
      }
      ProcessedGrows(env, cfg, Next(env, cfg, b, moves[0]), moves[1..]);
    }
  }

  /** A mint that was acknowledged and then lost from the pending operations: as long as the chain answers and does not
      have it, it is never sent again, in any run. */
  lemma {:induction false} LostMintIsNeverRetried(env: Env, cfg: Config, b: System, moves: seq<Move>, id: Hash)
    requires AllowedRun(env, cfg, b, moves) && Submitted(b, id)
    requires id !in After(env, cfg, b, moves).chain.assets.processed
    requires forall m | m in moves && m.ConfirmMove? :: id !in m.unreachable
    ensures var c := After(env, cfg, b, moves);
            id in c.world.rows && c.world.rows[id] == b.world.rows[id]
  {
    hide Next, After, AllowedRun;
    NeverFound(env, cfg, b, moves, id);
    SubmittedMintWaitsExactly(env, cfg, b, moves, id);
  }

  lemma {:induction false} NeverFound(env: Env, cfg: Config, b: System, moves: seq<Move>, id: Hash)
    requires AllowedRun(env, cfg, b, moves) && id !in After(env, cfg, b, moves).chain.assets.processed
    requires forall m | m in moves && m.ConfirmMove? :: id !in m.unreachable
    ensures NeverSettled(env, cfg, b, moves, id)
    decreases |moves|
  {
    hide Next, MintsAreRelayed;
    ProcessedGrows(env, cfg, b, moves);
    if moves != [] {
      NeverFound(env, cfg, Next(env, cfg, b, moves[0]), moves[1..], id);
    }
  }
}
