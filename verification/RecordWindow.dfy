/** The relayer sees a window of the chain's records, chosen by identity and not by age. */
module RecordWindow {
  import opened Core
  import opened Consensus
  import opened Relayer
  import opened BridgeSystem

  /** How many records the chain's interface serves: those with the largest identities. */
  const WINDOW := 1000

  /** The order of digests, which is that of their hexadecimal texts. */
  predicate Below(a: string, b: string)
    decreases |a|
  {
    b != "" && (a == "" || a[0] < b[0] || (a[0] == b[0] && Below(a[1..], b[1..])))
  }

  lemma {:induction false} BelowIsTotal(a: string, b: string)
    ensures a == b || Below(a, b) || Below(b, a)
    ensures !(Below(a, b) && Below(b, a)) && !Below(a, a)
    decreases |a|
  {
    if a != "" && b != "" && a[0] == b[0] {
      assert a == [a[0]] + a[1..] && b == [b[0]] + b[1..];
      BelowIsTotal(a[1..], b[1..]);
    }
    if a != "" {
      BelowItself(a);
    }
  }

  lemma {:induction false} BelowItself(a: string)
    ensures !Below(a, a)
    decreases |a|
  {
    if a != "" {
      BelowItself(a[1..]);
    }
  }

  /** In falling order of identity. */
  predicate Falling(served: seq<AssetOperation>) {
    forall i, j :: 0 <= i < j < |served| ==> Below(served[j].operationId.hex, served[i].operationId.hex)
  }

  /** What the interface answers: records in falling order of identity, as many as the window holds. */
  ghost predicate Served(records: map<Hash, AssetOperation>, served: seq<AssetOperation>) {
    && |served| <= WINDOW
    && (forall i :: 0 <= i < |served| ==>
          served[i].operationId in records && records[served[i].operationId] == served[i])
    && Falling(served)
    && (forall id | id in records && records[id] !in served ::
          |served| == WINDOW && forall i :: 0 <= i < WINDOW ==> Below(id.hex, served[i].operationId.hex))
  }

  ghost function Above(records: map<Hash, AssetOperation>, id: Hash): set<Hash> {
    set x | x in records && Below(id.hex, x.hex)
  }

  function IdsOf(served: seq<AssetOperation>): set<Hash> {
    set o | o in served :: o.operationId
  }

  lemma {:induction false} DistinctIds(served: seq<AssetOperation>)
    requires Falling(served)
    ensures |IdsOf(served)| == |served|
  {
    hide Below;
    if served != [] {
      var n := |served| - 1;
      DistinctIds(served[..n]);
      LastIsNew(served);
      assert IdsOf(served) == IdsOf(served[..n]) + {served[n].operationId};
    }
  }

  lemma LastIsNew(served: seq<AssetOperation>)
    requires Falling(served) && served != []
    ensures served[|served| - 1].operationId !in IdsOf(served[..|served| - 1])
    ensures forall o :: o in served <==> o in served[..|served| - 1] || o == served[|served| - 1]
  {
    hide Below;
    var n := |served| - 1;
    assert served == served[..n] + [served[n]];
    if served[n].operationId in IdsOf(served[..n]) {
      var i :| 0 <= i < n && served[i].operationId == served[n].operationId;
      BelowItself(served[n].operationId.hex);
    }
  }

  /** Records are kept under their own identities. */
  predicate Keyed(records: map<Hash, AssetOperation>) {
    forall id | id in records :: records[id].operationId == id
  }

  /** What is above a served record is served before it. */
  lemma AboveIsEarlier(records: map<Hash, AssetOperation>, served: seq<AssetOperation>, k: nat, x: Hash)
    requires Served(records, served) && Keyed(records) && k < |served|
    requires x in Above(records, served[k].operationId)
    ensures x in IdsOf(served[..k])
  {
    var id := served[k].operationId;
    BelowIsTotal(id.hex, x.hex);
    assert records[x] in served;
    var j :| 0 <= j < |served| && served[j] == records[x];
    assert served[j].operationId == x;
    if j < k {
      assert served[..k][j] == served[j];
    } else if k < j {
      assert false;
    } else {
      assert false;
    }
  }

  /** A record is served if and only if fewer records than the window holds have larger identities. */
  lemma ServedExactly(records: map<Hash, AssetOperation>, served: seq<AssetOperation>, id: Hash)
    requires Served(records, served) && Keyed(records) && id in records
    ensures records[id] in served <==> |Above(records, id)| < WINDOW
  {
    if records[id] in served {
      var k :| 0 <= k < |served| && served[k] == records[id];
      DistinctIds(served[..k]);
      forall x | x in Above(records, id) ensures x in IdsOf(served[..k]) {
        AboveIsEarlier(records, served, k, x);
      }
      SubsetSize(Above(records, id), IdsOf(served[..k]));
    } else {
      DistinctIds(served);
      forall x | x in IdsOf(served) ensures x in Above(records, id) {
        var o :| o in served && o.operationId == x;
      }
      SubsetSize(IdsOf(served), Above(records, id));
    }
  }

  lemma {:induction false} ServedBurnsAreRead(rows: map<Hash, Row>, records: seq<AssetOperation>, now: nat,
      o: AssetOperation)
    requires o in records && o.kind == BridgeBurn && |o.operationId.hex| == 64
    ensures o.operationId in ReadBurns(rows, records, now)
    decreases |records|
  {
    hide CanonicalKey;
    var first, rest := records[0], records[1..];
    var hit := first.kind == BridgeBurn && |first.operationId.hex| == 64;
    var rows' := if hit then InsertOrIgnore(rows, first.operationId, BurnRow(first, now)) else rows;
    BurnFacts(rows', rest, now);
    if first != o {
      ServedBurnsAreRead(rows', rest, now, o);
    }
  }

  /** After a cycle has read the chain's answer a recorded burn has a row if and only if it had one already, or fewer
      than a thousand records have larger identities. */
  lemma BurnGetsRowExactly(rows: map<Hash, Row>, records: map<Hash, AssetOperation>, served: seq<AssetOperation>,
      now: nat, id: Hash)
    requires Served(records, served) && Keyed(records)
    requires id in records && records[id].kind == BridgeBurn && |id.hex| == 64
    ensures id in ReadBurns(rows, served, now) <==> id in rows || |Above(records, id)| < WINDOW
  {
    hide CanonicalKey, Above, ReadBurns;
    ServedExactly(records, served, id);
    BurnFacts(rows, served, now);
    if records[id] in served {
      ServedBurnsAreRead(rows, served, now, records[id]);
    }
    if id in ReadBurns(rows, served, now) && id !in rows {
      var o :| o in served && o.operationId == id;
      assert o == records[id];
    }
  }

  function Digit(x: nat): char {
    ('0' as int + x % 10) as char
  }

  function Repeat(c: char, n: nat): (s: string)
    ensures |s| == n && forall i :: 0 <= i < n ==> s[i] == c
  {
    if n == 0 then "" else [c] + Repeat(c, n - 1)
  }

  const SMALLEST := Hash(Repeat('0', 64))

  /** A thousand identities above that of nothing but zeros. */
  function Numbered(i: nat): Hash {
    Hash([Digit(i / 100), Digit(i / 10), Digit(i)] + Repeat('9', 61))
  }

  lemma {:induction false} AboveZeros(zeros: string, s: string)
    requires |zeros| == |s| > 0 && (forall i :: 0 <= i < |s| ==> zeros[i] == '0' <= s[i]) && s[|s| - 1] == '9'
    ensures Below(zeros, s)
    decreases |s|
  {
    if |s| > 1 {
      AboveZeros(zeros[1..], s[1..]);
    }
  }

  lemma NumberedIsAbove(i: nat)
    ensures |Numbered(i).hex| == 64 && Below(SMALLEST.hex, Numbered(i).hex)
  {
    hide Repeat;
    AboveZeros(SMALLEST.hex, Numbered(i).hex);
  }

  lemma ThreeDigits(i: nat)
    requires i < WINDOW
    ensures i == 100 * (i / 100 % 10) + 10 * (i / 10 % 10) + i % 10
  {
  }

  lemma NumberedApart(i: nat, j: nat)
    requires i < j < WINDOW
    ensures Numbered(i) != Numbered(j)
  {
    ThreeDigits(i);
    ThreeDigits(j);
    hide Repeat;
    var a, b := Numbered(i).hex, Numbered(j).hex;
    assert a[0] == Digit(i / 100) && a[1] == Digit(i / 10) && a[2] == Digit(i);
    assert b[0] == Digit(j / 100) && b[1] == Digit(j / 10) && b[2] == Digit(j);
    SameDigit(i / 100, j / 100);
    SameDigit(i / 10, j / 10);
    SameDigit(i, j);
    hide Digit;
  }

  lemma SameDigit(x: nat, y: nat)
    ensures Digit(x) == Digit(y) <==> x % 10 == y % 10
  {
  }

  lemma {:induction false} ManyNumbered(n: nat)
    requires n <= WINDOW
    ensures |set i | 0 <= i < n :: Numbered(i)| == n
  {
    if n > 0 {
      ManyNumbered(n - 1);
      var fewer, all := set i | 0 <= i < n - 1 :: Numbered(i), set i | 0 <= i < n :: Numbered(i);
      forall i | 0 <= i < n - 1 ensures Numbered(i) != Numbered(n - 1) {
        NumberedApart(i, n - 1);
      }
      assert all == fewer + {Numbered(n - 1)};
    }
  }

  /** A burn under the smallest identity, below a thousand other records, gets no row however often the relayer asks. */
  lemma BuriedBurnIsNotRead(rows: map<Hash, Row>, records: map<Hash, AssetOperation>, served: seq<AssetOperation>,
      now: nat)
    requires Served(records, served) && Keyed(records) && SMALLEST !in rows
    requires SMALLEST in records && records[SMALLEST].kind == BridgeBurn
    requires forall i :: 0 <= i < WINDOW ==> Numbered(i) in records
    ensures SMALLEST !in ReadBurns(rows, served, now)
  {
    hide ReadBurns, Served, Numbered;
    var many := set i | 0 <= i < WINDOW :: Numbered(i);
    ManyNumbered(WINDOW);
    forall x | x in many ensures x in Above(records, SMALLEST) {
      var i :| 0 <= i < WINDOW && Numbered(i) == x;
      NumberedIsAbove(i);
    }
    SubsetSize(many, Above(records, SMALLEST));
    BurnGetsRowExactly(rows, records, served, now, SMALLEST);
  }
}
