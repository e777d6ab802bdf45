/** Stored blocks and snapshots of every age, and the roots over them. Each newer layout appends fields to the one
    before, so the bytes of an older layout are a proper prefix of nothing the newer decoder accepts. */
module Versioned {
  import opened Wrappers
  import opened Core
  import opened Postcard

  /* ---------- the types on the wire ---------- */

  const U64 := Int(64)
  const U128 := Int(128)
  const HASH := Raw(32)
  const ADDRESS := Raw(21)
  const KEY := Raw(32)
  const SIGNATURE := Raw(64)
  const BYTES := List(Byte)

  const ASSET_ID := Tuple([Text, Text, Maybe(Text), Byte])
  const HEADER := Tuple([Byte, Text, U64, HASH, U64, HASH, HASH, Maybe(KEY), Maybe(SIGNATURE)])
  const UNSIGNED_TRANSFER := Tuple([Byte, Text, U64, ADDRESS, ADDRESS, U128, U128, KEY, Text])
  const TRANSACTION := Tuple([UNSIGNED_TRANSFER, SIGNATURE])
  const ASSET_OPERATION := Tuple([Byte, HASH, Choice(2), ASSET_ID, ADDRESS, Text, U128, Text, Text])
  const UNSIGNED_TOKEN_OPERATION := Tuple([
    Byte, Text, U64, ADDRESS, Choice(10), HASH, Maybe(ADDRESS), U128, U128, KEY, Text, Text, Byte, Maybe(U128),
    Maybe(ADDRESS), Maybe(ADDRESS), Maybe(ADDRESS), Text, HASH, Text])
  const TOKEN_OPERATION := Tuple([UNSIGNED_TOKEN_OPERATION, SIGNATURE])
  const UNSIGNED_SWAP := Tuple([Byte, Text, U64, ADDRESS, Choice(2), ASSET_ID, U128, U128, U128, KEY, Text])
  const SWAP_OPERATION := Tuple([UNSIGNED_SWAP, SIGNATURE])
  const RESERVE_OPERATION := Tuple([
    Byte, HASH, Choice(2), ASSET_ID, ADDRESS, U128, U128, U128, U128, U64, U128, Text, Text, Text])
  const PROGRAM_OPERATION := Tuple([Byte, Text, Choice(4), U64, U128, Text, BYTES, U64, Text, Text, KEY, SIGNATURE])

  const ACCOUNT := Tuple([U128, U64])
  const TOKEN_DEFINITION := Tuple([
    HASH, ADDRESS, Text, Text, Byte, U128, Maybe(U128), Maybe(ADDRESS), Maybe(ADDRESS), Maybe(ADDRESS), Text, HASH,
    Flag])
  const RESERVE_LEDGER := Tuple([U128, U128, U128, U128, U128, U128, U128, U128, Flag])
  const PROGRAM_RECORD := Tuple([BYTES, ADDRESS, U64, List(Tuple([Text, Text]))])
  const PROGRAM_RECEIPT := Tuple([HASH, Text, Choice(4), Text, BYTES, U64, U64, U128, Maybe(Text)])

  function MapOf(key: Schema, value: Schema): Schema {
    List(Tuple([key, value]))
  }

  /** The fields of a block, oldest first; layouts end after 2, 6 and 7 of them. */
  const BLOCK: seq<Schema> := [
    HEADER, List(TRANSACTION), List(ASSET_OPERATION), List(TOKEN_OPERATION), List(SWAP_OPERATION),
    List(RESERVE_OPERATION), List(PROGRAM_OPERATION)]

  /** The fields of a snapshot, oldest first; layouts end after 4, 7, 16 and 19 of them. */
  const SNAPSHOT: seq<Schema> := [
    Text, U128, U128, MapOf(ADDRESS, ACCOUNT),
    MapOf(ADDRESS, MapOf(Text, U128)), List(HASH), MapOf(HASH, ASSET_OPERATION),
    MapOf(HASH, TOKEN_DEFINITION), List(HASH), MapOf(HASH, TOKEN_OPERATION), List(Tuple([HASH, ADDRESS])),
    RESERVE_LEDGER, List(HASH), MapOf(HASH, SWAP_OPERATION), List(HASH), MapOf(HASH, RESERVE_OPERATION),
    MapOf(Text, PROGRAM_RECORD), MapOf(HASH, PROGRAM_RECEIPT), MapOf(Text, U64)]

  const EMPTY := Items([])
  const NO_RESERVE := Items([Num(0), Num(0), Num(0), Num(0), Num(0), Num(0), Num(0), Num(0), Num(0)])

  /** What a field is when an older layout does not have it; the first four of a snapshot are always there. */
  const BLOCK_DEFAULTS: seq<Value> := [EMPTY, EMPTY, EMPTY, EMPTY, EMPTY, EMPTY, EMPTY]
  const SNAPSHOT_DEFAULTS: seq<Value> := [
    EMPTY, EMPTY, EMPTY, EMPTY, EMPTY, EMPTY, EMPTY, EMPTY, EMPTY, EMPTY, EMPTY, NO_RESERVE, EMPTY, EMPTY, EMPTY,
    EMPTY, EMPTY, EMPTY, EMPTY]

  /* ---------- decoding newest first ---------- */

  type Utf8 = seq<byte> -> bool

  function EncodeFields(fields: seq<Schema>, values: seq<Value>): seq<byte> {
    Encode(Tuple(fields), Items(values))
  }

  predicate FieldsHaveShape(utf8: Utf8, fields: seq<Schema>, values: seq<Value>) {
    HasShape(utf8, Tuple(fields), Items(values))
  }

  /** Trailing bytes are ignored, as the decoder does. */
  function DecodeFields(utf8: Utf8, fields: seq<Schema>, b: seq<byte>): Option<seq<Value>> {
    var r := Decode(utf8, Tuple(fields), b);
    if r.Some? && r.value.0.Items? then Some(r.value.0.items) else None
  }

  /** The layouts are tried in the order given; missing fields get their defaults. */
  function DecodeNewest(utf8: Utf8, fields: seq<Schema>, defaults: seq<Value>, layouts: seq<nat>,
      b: seq<byte>): Option<seq<Value>>
    requires |defaults| == |fields| && forall i :: 0 <= i < |layouts| ==> layouts[i] <= |fields|
    decreases |layouts|
  {
    if layouts == [] then None
    else
      var values := DecodeFields(utf8, fields[..layouts[0]], b);
      if values.Some? then Some(values.value + defaults[layouts[0]..])
      else DecodeNewest(utf8, fields, defaults, layouts[1..], b)
  }

  const BLOCK_LAYOUTS: seq<nat> := [7, 6, 2]
  const SNAPSHOT_LAYOUTS: seq<nat> := [19, 16, 7, 4]

  function DecodeBlock(utf8: Utf8, b: seq<byte>): Option<seq<Value>> {
    DecodeNewest(utf8, BLOCK, BLOCK_DEFAULTS, BLOCK_LAYOUTS, b)
  }

  function DecodeSnapshot(utf8: Utf8, b: seq<byte>): Option<seq<Value>> {
    DecodeNewest(utf8, SNAPSHOT, SNAPSHOT_DEFAULTS, SNAPSHOT_LAYOUTS, b)
  }

  /* ---------- older bytes ---------- */

  /** Shapes that take at least one byte. */
  predicate TakesSpace(s: Schema) {
    match s
    case Raw(size) => size > 0
    case Tuple(parts) => parts != [] && TakesSpace(parts[0])
    case _ => true
  }

  lemma NothingDecodesNothing(utf8: Utf8, s: Schema)
    requires TakesSpace(s)
    ensures Decode(utf8, s, []).None?
    decreases s
  {
    if s.Tuple? {
      NothingDecodesNothing(utf8, s.parts[0]);
    }
  }

  /** Parts whose bytes end early are not decoded. */
  lemma {:induction false} PartsRunOut(utf8: Utf8, s: Schema, i: nat, k: nat, items: seq<Value>)
    requires s.Tuple? && i <= k < |s.parts| && |items| == k && TakesSpace(s.parts[k])
    requires forall j :: i <= j < k ==> HasShape(utf8, s.parts[j], items[j])
    ensures DecodeParts(utf8, s, i, EncodeParts(s, i, items)).None?
    decreases k - i
  {
    if i == k {
      NothingDecodesNothing(utf8, s.parts[k]);
    } else {
      RoundTrip(utf8, s.parts[i], items[i], EncodeParts(s, i + 1, items));
      PartsRunOut(utf8, s, i + 1, k, items);
    }
  }

  /** Only the parts that have items matter. */
  lemma {:induction false} SameParts(s: Schema, t: Schema, i: nat, items: seq<Value>)
    requires s.Tuple? && t.Tuple? && |items| <= |s.parts| && |items| <= |t.parts|
    requires forall j :: 0 <= j < |items| ==> s.parts[j] == t.parts[j]
    ensures EncodeParts(s, i, items) == EncodeParts(t, i, items)
    decreases |items| - i
  {
    hide Encode;
    if i < |items| {
      SameParts(s, t, i + 1, items);
    }
  }

  predicate AllTakeSpace(fields: seq<Schema>) {
    forall i :: 0 <= i < |fields| ==> TakesSpace(fields[i])
  }

  lemma ShapesOfFields(utf8: Utf8, fields: seq<Schema>, values: seq<Value>)
    ensures FieldsHaveShape(utf8, fields, values)
            <==> |values| == |fields| && forall i :: 0 <= i < |fields| ==> HasShape(utf8, fields[i], values[i])
  {
  }

  /** The bytes of the first `k` fields are not an encoding of more of them. */
  lemma FewerFieldsFail(utf8: Utf8, fields: seq<Schema>, k: nat, more: nat, values: seq<Value>)
    requires k < more <= |fields| && AllTakeSpace(fields) && FieldsHaveShape(utf8, fields[..k], values)
    ensures DecodeFields(utf8, fields[..more], EncodeFields(fields[..k], values)).None?
  {
    hide HasShape, TakesSpace, EncodeParts, DecodeParts;
    ShapesOfFields(utf8, fields[..k], values);
    var s, t := Tuple(fields[..more]), Tuple(fields[..k]);
    SameParts(s, t, 0, values);
    PartsRunOut(utf8, s, 0, k, values);
  }

  lemma SameFieldsDecode(utf8: Utf8, fields: seq<Schema>, values: seq<Value>)
    requires FieldsHaveShape(utf8, fields, values)
    ensures DecodeFields(utf8, fields, EncodeFields(fields, values)) == Some(values)
  {
    hide HasShape;
    RoundTrip(utf8, Tuple(fields), Items(values), []);
    hide Encode, Decode;
    assert EncodeFields(fields, values) + [] == EncodeFields(fields, values);
  }

  predicate NewestFirst(layouts: seq<nat>, fields: nat) {
    && (forall i :: 0 <= i < |layouts| ==> layouts[i] <= fields)
    && (forall i, j :: 0 <= i < j < |layouts| ==> layouts[i] > layouts[j])
  }

  /** Trying the newest layout first still reads the bytes of every layout as what they were, with the fields of
      later layouts at their defaults. */
  lemma {:induction false} EveryLayoutDecodes(utf8: Utf8, fields: seq<Schema>, defaults: seq<Value>, layouts: seq<nat>,
      i: nat, values: seq<Value>)
    requires |defaults| == |fields| && NewestFirst(layouts, |fields|) && AllTakeSpace(fields)
    requires i < |layouts| && FieldsHaveShape(utf8, fields[..layouts[i]], values)
    ensures DecodeNewest(utf8, fields, defaults, layouts, EncodeFields(fields[..layouts[i]], values))
            == Some(values + defaults[layouts[i]..])
    decreases |layouts|
  {
    hide HasShape, TakesSpace, DecodeFields, EncodeFields, FieldsHaveShape;
    if i == 0 {
      SameFieldsDecode(utf8, fields[..layouts[0]], values);
    } else {
      FewerFieldsFail(utf8, fields, layouts[i], layouts[0], values);
      EveryLayoutDecodes(utf8, fields, defaults, layouts[1..], i - 1, values);
    }
  }

  lemma StoredFieldsTakeSpace()
    ensures AllTakeSpace(BLOCK) && AllTakeSpace(SNAPSHOT)
  {
  }

  /** Blocks stored with seven, six or two fields. */
  lemma StoredBlocksDecode(utf8: Utf8, i: nat, values: seq<Value>)
    requires i < 3 && FieldsHaveShape(utf8, BLOCK[..BLOCK_LAYOUTS[i]], values)
    ensures DecodeBlock(utf8, EncodeFields(BLOCK[..BLOCK_LAYOUTS[i]], values))
            == Some(values + BLOCK_DEFAULTS[BLOCK_LAYOUTS[i]..])
  {
    StoredFieldsTakeSpace();
    hide HasShape, AllTakeSpace, EncodeFields, DecodeNewest, FieldsHaveShape;
    EveryLayoutDecodes(utf8, BLOCK, BLOCK_DEFAULTS, BLOCK_LAYOUTS, i, values);
  }

  /** Snapshots stored with nineteen, sixteen, seven or four fields. */
  lemma StoredSnapshotsDecode(utf8: Utf8, i: nat, values: seq<Value>)
    requires i < 4 && FieldsHaveShape(utf8, SNAPSHOT[..SNAPSHOT_LAYOUTS[i]], values)
    ensures DecodeSnapshot(utf8, EncodeFields(SNAPSHOT[..SNAPSHOT_LAYOUTS[i]], values))
            == Some(values + SNAPSHOT_DEFAULTS[SNAPSHOT_LAYOUTS[i]..])
  {
    StoredFieldsTakeSpace();
    hide HasShape, AllTakeSpace, EncodeFields, DecodeNewest, FieldsHaveShape;
    EveryLayoutDecodes(utf8, SNAPSHOT, SNAPSHOT_DEFAULTS, SNAPSHOT_LAYOUTS, i, values);
  }

  /* ---------- state roots ---------- */

  predicate EmptyRange(v: seq<Value>, from: nat, to: nat)
    requires from <= to <= |v|
  {
    forall i :: from <= i < to ==> v[i] == EMPTY
  }

  /** Which layout the state root is taken over: the oldest whose later maps are all empty. The reserve fields between
      tokens and programs are not asked about. */
  function RootLayout(v: seq<Value>): (k: nat)
    requires |v| == 19
    ensures k <= |SNAPSHOT| == 19 && k in SNAPSHOT_LAYOUTS
  {
    if !EmptyRange(v, 16, 19) then 19
    else if !EmptyRange(v, 7, 11) then 16
    else if !EmptyRange(v, 4, 7) then 7
    else 4
  }

  function Preimage(v: seq<Value>): seq<byte>
    requires |v| == 19
  {
    EncodeFields(SNAPSHOT[..RootLayout(v)], v[..RootLayout(v)])
  }

  lemma CoveredHasShape(utf8: Utf8, v: seq<Value>)
    requires |v| == 19 && FieldsHaveShape(utf8, SNAPSHOT, v)
    ensures FieldsHaveShape(utf8, SNAPSHOT[..RootLayout(v)], v[..RootLayout(v)])
  {
    hide HasShape, RootLayout;
    ShapesOfFields(utf8, SNAPSHOT, v);
    ShapesOfFields(utf8, SNAPSHOT[..RootLayout(v)], v[..RootLayout(v)]);
  }

  /** Two states have the same root bytes exactly when they use the same layout and agree on its fields. */
  lemma RootsAgreeExactly(utf8: Utf8, v: seq<Value>, w: seq<Value>)
    requires |v| == 19 && |w| == 19 && FieldsHaveShape(utf8, SNAPSHOT, v) && FieldsHaveShape(utf8, SNAPSHOT, w)
    ensures Preimage(v) == Preimage(w) <==> RootLayout(v) == RootLayout(w) && v[..RootLayout(v)] == w[..RootLayout(w)]
  {
    hide HasShape, AllTakeSpace, EncodeFields, DecodeFields, FieldsHaveShape, RootLayout;
    StoredFieldsTakeSpace();
    var i, j := RootLayout(v), RootLayout(w);
    CoveredHasShape(utf8, v);
    CoveredHasShape(utf8, w);
    SameFieldsDecode(utf8, SNAPSHOT[..i], v[..i]);
    SameFieldsDecode(utf8, SNAPSHOT[..j], w[..j]);
    if i < j {
      FewerFieldsFail(utf8, SNAPSHOT, i, j, v[..i]);
    } else if j < i {
      FewerFieldsFail(utf8, SNAPSHOT, j, i, w[..j]);
    }
  }

  /** What any of the layouts gives back for the fields it stored. */
  lemma StoredSnapshotParts(utf8: Utf8, i: nat, values: seq<Value>)
    requires i < 4 && FieldsHaveShape(utf8, SNAPSHOT[..SNAPSHOT_LAYOUTS[i]], values)
    ensures var n := SNAPSHOT_LAYOUTS[i];
            var v := values + SNAPSHOT_DEFAULTS[n..];
            && |values| == n && |v| == 19 && v[..n] == values && v[n..] == SNAPSHOT_DEFAULTS[n..]
            && FieldsHaveShape(utf8, SNAPSHOT, v)
  {
    hide HasShape;
    var n := SNAPSHOT_LAYOUTS[i];
    var v := values + SNAPSHOT_DEFAULTS[n..];
    ShapesOfFields(utf8, SNAPSHOT[..n], values);
    ShapesOfFields(utf8, SNAPSHOT, v);
    forall k | n <= k < 19 ensures HasShape(utf8, SNAPSHOT[k], v[k]) {
      DefaultsHaveShape(utf8, k);
    }
  }

  lemma DefaultsHaveShape(utf8: Utf8, k: nat)
    requires 4 <= k < 19
    ensures HasShape(utf8, SNAPSHOT[k], SNAPSHOT_DEFAULTS[k])
  {
  }

  /** Whether the later maps are empty is decided by the fields a layout has, if the others are at their defaults. */
  lemma SameFront(v: seq<Value>, r: seq<Value>, i: nat)
    requires i < 4 && |v| == 19 && |r| == 19
    requires var n := SNAPSHOT_LAYOUTS[i]; r[..n] == v[..n] && r[n..] == SNAPSHOT_DEFAULTS[n..]
    ensures var n := SNAPSHOT_LAYOUTS[i];
            RootLayout(r) <= n && (RootLayout(v) <= n ==> RootLayout(r) == RootLayout(v))
  {
    var n := SNAPSHOT_LAYOUTS[i];
    SameRange(v, r, n, 4, 7);
    SameRange(v, r, n, 7, 11);
    SameRange(v, r, n, 16, 19);
    hide EmptyRange;
  }

  lemma SameRange(v: seq<Value>, r: seq<Value>, n: nat, from: nat, to: nat)
    requires n in SNAPSHOT_LAYOUTS && |v| == 19 && |r| == 19 && r[..n] == v[..n] && r[n..] == SNAPSHOT_DEFAULTS[n..]
    requires (from, to) in [(4, 7), (7, 11), (16, 19)]
    ensures if to <= n then EmptyRange(r, from, to) == EmptyRange(v, from, to) else EmptyRange(r, from, to)
  {
    if to <= n {
      assert forall k :: from <= k < to ==> r[k] == r[..n][k] && v[k] == v[..n][k];
    } else {
      assert forall k :: from <= k < to ==> r[k] == r[n..][k - n];
    }
  }

  /** A snapshot of any age, stored in its layout of n fields, is restored as it was, and its root is taken over no
      more than the fields that were stored. */
  lemma LegacyRootIsKept(utf8: Utf8, i: nat, values: seq<Value>)
    requires i < 4 && FieldsHaveShape(utf8, SNAPSHOT[..SNAPSHOT_LAYOUTS[i]], values)
    ensures var n := SNAPSHOT_LAYOUTS[i];
            var v := values + SNAPSHOT_DEFAULTS[n..];
            && |values| == n && |v| == 19
            && DecodeSnapshot(utf8, EncodeFields(SNAPSHOT[..n], values)) == Some(v)
            && RootLayout(v) <= n && Preimage(v) == EncodeFields(SNAPSHOT[..RootLayout(v)], values[..RootLayout(v)])
  {
    hide HasShape, EncodeFields, DecodeSnapshot, FieldsHaveShape;
    StoredSnapshotsDecode(utf8, i, values);
    StoredSnapshotParts(utf8, i, values);
    var n := SNAPSHOT_LAYOUTS[i];
    var v := values + SNAPSHOT_DEFAULTS[n..];
    SameFront(v, v, i);
    assert v[..RootLayout(v)] == values[..RootLayout(v)];
  }

  /** Storing a state in any of the layouts and reading it back keeps its root if and only if the layout has all the
      fields its root is taken over, and keeps the state if and only if the other fields were at their defaults. */
  lemma RestoredRootIsSame(utf8: Utf8, i: nat, v: seq<Value>)
    requires i < 4 && |v| == 19 && FieldsHaveShape(utf8, SNAPSHOT, v)
    ensures var n := SNAPSHOT_LAYOUTS[i];
            var r := DecodeSnapshot(utf8, EncodeFields(SNAPSHOT[..n], v[..n]));
            && r.Some? && |r.value| == 19
            && (Preimage(r.value) == Preimage(v) <==> RootLayout(v) <= n)
            && (r.value == v <==> v[n..] == SNAPSHOT_DEFAULTS[n..])
  {
    hide HasShape, EncodeFields, DecodeSnapshot, FieldsHaveShape;
    var n := SNAPSHOT_LAYOUTS[i];
    ShapesOfFields(utf8, SNAPSHOT, v);
    ShapesOfFields(utf8, SNAPSHOT[..n], v[..n]);
    StoredSnapshotParts(utf8, i, v[..n]);
    StoredSnapshotsDecode(utf8, i, v[..n]);
    var r := v[..n] + SNAPSHOT_DEFAULTS[n..];
    assert v == v[..n] + v[n..];
    SameFront(v, r, i);
    RootsAgreeExactly(utf8, r, v);
  }
}
