/** The Postcard wire format for the shapes the chain stores and signs. */
module Postcard {
  import opened Wrappers
  import opened Core
  import opened Arithmetic

  /* ---------- varints ---------- */

  /** Seven bits a byte, least significant first; the high bit says that more follow. */
  function EncodeVarint(n: nat): (b: seq<byte>)
    ensures b != []
  {
    if n < 128 then [n] else [n % 128 + 128] + EncodeVarint(n / 128)
  }

  /** Reads an integer of `bits` bits. Longer than canonical forms are read as well; a form that does not fit is not. */
  function DecodeVarint(b: seq<byte>, bits: nat): Option<(nat, seq<byte>)>
    decreases bits
  {
    if b == [] then None
    else if b[0] < 128 then
      if bits < 7 && b[0] >= Pow2(bits) then None else Some((b[0], b[1..]))
    else if bits <= 7 then None
    else
      var rest := DecodeVarint(b[1..], bits - 7);
      if rest.None? then None else Some((b[0] - 128 + 128 * rest.value.0, rest.value.1))
  }

  lemma {:induction false} VarintRoundTrip(n: nat, bits: nat, rest: seq<byte>)
    requires n < Pow2(bits)
    ensures DecodeVarint(EncodeVarint(n) + rest, bits) == Some((n, rest))
    decreases n
  {
    var b := EncodeVarint(n) + rest;
    if n < 128 {
      assert b[1..] == rest;
    } else {
      SevenBits(n, bits);
      VarintRoundTrip(n / 128, bits - 7, rest);
      assert b[1..] == EncodeVarint(n / 128) + rest;
    }
  }

  lemma SevenBits(n: nat, bits: nat)
    requires 128 <= n < Pow2(bits)
    ensures bits > 7 && n / 128 < Pow2(bits - 7)
  {
    PowOfSeven();
    if bits <= 7 {
      PowOrdered(bits, 7);
    } else {
      PowAdds(bits - 7, 7);
      assert Pow2(bits) == Pow2(bits - 7) * 128;
    }
  }

  lemma PowOfSeven()
    ensures Pow2(7) == 128
  {
    assert Pow2(1) == 2 && Pow2(2) == 4 && Pow2(3) == 8 && Pow2(4) == 16 && Pow2(5) == 32 && Pow2(6) == 64;
  }

  lemma {:induction false} PowOrdered(a: nat, b: nat)
    requires a <= b
    ensures Pow2(a) <= Pow2(b)
    decreases b - a
  {
    if a < b {
      PowOrdered(a, b - 1);
    }
  }

  /* ---------- shapes, values and their bytes ---------- */

  /** What a type looks like on the wire. Structs and tuples are `Tuple`; vectors, sets and maps are `List`; an
      enumeration of unit variants is a `Choice`. */
  datatype Schema =
    | Byte | Flag | Int(bits: nat) | Text | Raw(size: nat) | Maybe(of: Schema) | List(item: Schema)
    | Tuple(parts: seq<Schema>) | Choice(count: nat)

  datatype Value = Num(n: nat) | Chars(text: seq<byte>) | Absent | Present(value: Value) | Items(items: seq<Value>)

  const LENGTH_BITS := 64
  const CHOICE_BITS := 32

  /** `utf8`: which byte strings are text. */
  predicate HasShape(utf8: seq<byte> -> bool, s: Schema, v: Value)
    decreases s
  {
    match s
    case Byte => v.Num? && v.n < 256
    case Flag => v.Num? && v.n < 2
    case Int(bits) => v.Num? && v.n < Pow2(bits)
    case Text => v.Chars? && utf8(v.text) && |v.text| < Pow2(LENGTH_BITS)
    case Raw(size) => v.Chars? && |v.text| == size
    case Maybe(of) => v.Absent? || (v.Present? && HasShape(utf8, of, v.value))
    case List(item) => v.Items? && |v.items| < Pow2(LENGTH_BITS) && forall i :: 0 <= i < |v.items| ==>
      HasShape(utf8, item, v.items[i])
    case Tuple(parts) => v.Items? && |v.items| == |parts| && forall i :: 0 <= i < |parts| ==>
      HasShape(utf8, parts[i], v.items[i])
    case Choice(count) => v.Num? && v.n < count && v.n < Pow2(CHOICE_BITS)
  }

  function Encode(s: Schema, v: Value): seq<byte>
    decreases s, 1, 0
  {
    match s
    case Byte => if v.Num? && v.n < 256 then [v.n] else []
    case Flag => if v.Num? && v.n < 2 then [v.n] else []
    case Int(_) => if v.Num? then EncodeVarint(v.n) else []
    case Text => if v.Chars? then EncodeVarint(|v.text|) + v.text else []
    case Raw(_) => if v.Chars? then v.text else []
    case Maybe(of) => if v.Present? then [1] + Encode(of, v.value) else [0]
    case List(_) => if v.Items? then EncodeVarint(|v.items|) + EncodeItems(s, v.items) else []
    case Tuple(_) => if v.Items? then EncodeParts(s, 0, v.items) else []
    case Choice(_) => if v.Num? then EncodeVarint(v.n) else []
  }

  function EncodeItems(s: Schema, items: seq<Value>): seq<byte>
    requires s.List?
    decreases s, 0, |items|
  {
    if items == [] then [] else Encode(s.item, items[0]) + EncodeItems(s, items[1..])
  }

  /** The parts from index `i` on. */
  function EncodeParts(s: Schema, i: nat, items: seq<Value>): seq<byte>
    requires s.Tuple?
    decreases s, 0, if i < |s.parts| then |s.parts| - i else 0
  {
    if i >= |s.parts| || i >= |items| then [] else Encode(s.parts[i], items[i]) + EncodeParts(s, i + 1, items)
  }

  type Read<T> = Option<(T, seq<byte>)>

  function Take(b: seq<byte>, n: nat): Read<seq<byte>> {
    if n > |b| then None else Some((b[..n], b[n..]))
  }

  function Decode(utf8: seq<byte> -> bool, s: Schema, b: seq<byte>): Read<Value>
    decreases s, 1, 0
  {
    match s
    case Byte => if b == [] then None else Some((Num(b[0]), b[1..]))
    case Flag => if b == [] || b[0] > 1 then None else Some((Num(b[0]), b[1..]))
    case Int(bits) => DecodeNum(b, bits)
    case Text =>
      var n := DecodeVarint(b, LENGTH_BITS);
      if n.None? then None
      else
        var t := Take(n.value.1, n.value.0);
        if t.None? || !utf8(t.value.0) then None else Some((Chars(t.value.0), t.value.1))
    case Raw(size) =>
      var t := Take(b, size);
      if t.None? then None else Some((Chars(t.value.0), t.value.1))
    case Maybe(of) =>
      if b == [] || b[0] > 1 then None
      else if b[0] == 0 then Some((Absent, b[1..]))
      else
        var v := Decode(utf8, of, b[1..]);
        if v.None? then None else Some((Present(v.value.0), v.value.1))
    case List(_) =>
      var n := DecodeVarint(b, LENGTH_BITS);
      if n.None? then None
      else
        var items := DecodeItems(utf8, s, n.value.0, n.value.1);
        if items.None? then None else Some((Items(items.value.0), items.value.1))
    case Tuple(_) =>
      var items := DecodeParts(utf8, s, 0, b);
      if items.None? then None else Some((Items(items.value.0), items.value.1))
    case Choice(count) =>
      var n := DecodeVarint(b, CHOICE_BITS);
      if n.None? || n.value.0 >= count then None else Some((Num(n.value.0), n.value.1))
  }

  function DecodeNum(b: seq<byte>, bits: nat): Read<Value> {
    var n := DecodeVarint(b, bits);
    if n.None? then None else Some((Num(n.value.0), n.value.1))
  }

  function DecodeItems(utf8: seq<byte> -> bool, s: Schema, count: nat, b: seq<byte>): Read<seq<Value>>
    requires s.List?
    decreases s, 0, count
  {
    if count == 0 then Some(([], b))
    else
      var first := Decode(utf8, s.item, b);
      if first.None? then None
      else
        var rest := DecodeItems(utf8, s, count - 1, first.value.1);
        if rest.None? then None else Some(([first.value.0] + rest.value.0, rest.value.1))
  }

  function DecodeParts(utf8: seq<byte> -> bool, s: Schema, i: nat, b: seq<byte>): Read<seq<Value>>
    requires s.Tuple?
    decreases s, 0, if i < |s.parts| then |s.parts| - i else 0
  {
    if i >= |s.parts| then Some(([], b))
    else
      var first := Decode(utf8, s.parts[i], b);
      if first.None? then None
      else
        var rest := DecodeParts(utf8, s, i + 1, first.value.1);
        if rest.None? then None else Some(([first.value.0] + rest.value.0, rest.value.1))
  }

  /* ---------- round trip and unambiguity ---------- */

  /** Decoding what was encoded gives the value and leaves whatever followed. */
  lemma {:induction false} RoundTrip(utf8: seq<byte> -> bool, s: Schema, v: Value, rest: seq<byte>)
    requires HasShape(utf8, s, v)
    ensures Decode(utf8, s, Encode(s, v) + rest) == Some((v, rest))
    decreases s, 1, 0
  {
    hide EncodeVarint, DecodeVarint, Pow2;
    var b := Encode(s, v) + rest;
    match s
    case Byte => assert b[1..] == rest;
    case Flag => assert b[1..] == rest;
    case Int(bits) => VarintRoundTrip(v.n, bits, rest);
    case Text =>
      VarintRoundTrip(|v.text|, LENGTH_BITS, v.text + rest);
      assert b == EncodeVarint(|v.text|) + (v.text + rest);
    case Raw(size) =>
    case Maybe(of) =>
      if v.Present? {
        RoundTrip(utf8, of, v.value, rest);
        assert b[1..] == Encode(of, v.value) + rest;
      } else {
        assert b[1..] == rest;
      }
    case List(item) =>
      VarintRoundTrip(|v.items|, LENGTH_BITS, EncodeItems(s, v.items) + rest);
      assert b == EncodeVarint(|v.items|) + (EncodeItems(s, v.items) + rest);
      ItemsRoundTrip(utf8, s, v.items, rest);
    case Tuple(parts) => PartsRoundTrip(utf8, s, 0, v.items, rest);
    case Choice(count) => VarintRoundTrip(v.n, CHOICE_BITS, rest);
  }

  lemma {:induction false} ItemsRoundTrip(utf8: seq<byte> -> bool, s: Schema, items: seq<Value>, rest: seq<byte>)
    requires s.List? && forall i :: 0 <= i < |items| ==> HasShape(utf8, s.item, items[i])
    ensures DecodeItems(utf8, s, |items|, EncodeItems(s, items) + rest) == Some((items, rest))
    decreases s, 0, |items|
  {
    if items == [] {
      assert EncodeItems(s, items) + rest == rest;
    } else {
      var tail := EncodeItems(s, items[1..]) + rest;
      assert EncodeItems(s, items) + rest == Encode(s.item, items[0]) + tail;
      RoundTrip(utf8, s.item, items[0], tail);
      ItemsRoundTrip(utf8, s, items[1..], rest);
      hide Decode, Encode, HasShape;
      assert items == [items[0]] + items[1..];
    }
  }

  lemma {:induction false} PartsRoundTrip(utf8: seq<byte> -> bool, s: Schema, i: nat, items: seq<Value>,
      rest: seq<byte>)
    requires s.Tuple? && i <= |s.parts| == |items|
    requires forall j :: i <= j < |items| ==> HasShape(utf8, s.parts[j], items[j])
    ensures DecodeParts(utf8, s, i, EncodeParts(s, i, items) + rest) == Some((items[i..], rest))
    decreases s, 0, |s.parts| - i
  {
    if i == |items| {
      assert EncodeParts(s, i, items) + rest == rest && items[i..] == [];
    } else {
      var tail := EncodeParts(s, i + 1, items) + rest;
      assert EncodeParts(s, i, items) + rest == Encode(s.parts[i], items[i]) + tail;
      RoundTrip(utf8, s.parts[i], items[i], tail);
      PartsRoundTrip(utf8, s, i + 1, items, rest);
      hide Decode, Encode, HasShape;
      assert items[i..] == [items[i]] + items[i + 1..];
    }
  }

  /** No encoding of a shape is a proper prefix of another: what follows cannot change what is read. */
  lemma PrefixFree(utf8: seq<byte> -> bool, s: Schema, v: Value, rest: seq<byte>, w: Value, rest': seq<byte>)
    requires HasShape(utf8, s, v) && HasShape(utf8, s, w)
    requires Encode(s, v) + rest == Encode(s, w) + rest'
    ensures v == w && rest == rest'
  {
    RoundTrip(utf8, s, v, rest);
    RoundTrip(utf8, s, w, rest');
  }
}
