/** The wallet's addresses: version byte and digest as five-bit symbols, with a checksum. */
module Address {
  import opened Wrappers
  import opened Arithmetic
  import opened Regroup
  import opened Polymod

  const CHARSET := "qpzry9x8gf2tvdw0s3jn54khce6mua7l"
  const PAYLOAD_BYTES := 21

  /* ---------- symbols and characters ---------- */

  lemma CharsetDistinct()
    ensures |CHARSET| == 32
    ensures forall i, j :: 0 <= i < j < 32 ==> CHARSET[i] != CHARSET[j]
    ensures forall i :: 0 <= i < 32 ==> CHARSET[i] != '1'
  {
  }

  /** Where a character stands in the character set. */
  function Position(c: char, from: nat): Option<nat>
    decreases 32 - from
  {
    if from >= 32 || from >= |CHARSET| then None else if CHARSET[from] == c then Some(from) else Position(c, from + 1)
  }

  lemma {:induction false} PositionOf(i: nat, from: nat)
    requires from <= i < 32
    ensures |CHARSET| == 32 && Position(CHARSET[i], from) == Some(i)
    decreases i - from
  {
    CharsetDistinct();
    hide CHARSET;
    if from < i {
      PositionOf(i, from + 1);
    }
  }

  lemma {:induction false} PositionMeans(c: char, from: nat)
    requires Position(c, from).Some?
    ensures from <= Position(c, from).value < 32 && |CHARSET| == 32 && CHARSET[Position(c, from).value] == c
    decreases 32 - from
  {
    CharsetDistinct();
    hide CHARSET;
    if CHARSET[from] != c {
      PositionMeans(c, from + 1);
    }
  }

  predicate Fives(values: seq<nat>) {
    forall i :: 0 <= i < |values| ==> values[i] < 32
  }

  lemma Widths()
    ensures Pow2(5) == 32 && Pow2(8) == 256
  {
    assert Pow2(1) == 2 && Pow2(2) == 4 && Pow2(3) == 8 && Pow2(4) == 16 && Pow2(5) == 32;
    assert Pow2(6) == 64 && Pow2(7) == 128;
  }

  function SymbolChar(x: nat): char
    requires x < 32
  {
    CharsetDistinct();
    CHARSET[x]
  }

  function Text(values: seq<nat>): (s: string)
    requires Fives(values)
    ensures |s| == |values| && forall i :: 0 <= i < |values| ==> s[i] == SymbolChar(values[i])
  {
    if values == [] then "" else [SymbolChar(values[0])] + Text(values[1..])
  }

  /** The symbols of a text, unless some character is none. */
  function Symbols(s: string): (r: Option<seq<nat>>)
    ensures r.Some? ==> |r.value| == |s| && Fives(r.value) && forall i :: 0 <= i < |s| ==>
            Position(s[i], 0) == Some(r.value[i])
    ensures r.None? ==> exists i :: 0 <= i < |s| && Position(s[i], 0).None?
  {
    if s == "" then Some([])
    else
      var first, rest := Position(s[0], 0), Symbols(s[1..]);
      if first.None? then None
      else if rest.None? then None
      else
        PositionMeans(s[0], 0);
        Some([first.value] + rest.value)
  }

  lemma SymbolsOfText(values: seq<nat>)
    requires Fives(values)
    ensures Symbols(Text(values)) == Some(values)
  {
    hide CHARSET;
    forall i | 0 <= i < |values| ensures Position(Text(values)[i], 0) == Some(values[i]) {
      PositionOf(values[i], 0);
    }
    hide Position, Text;
    var r := Symbols(Text(values));
    if r.Some? {
      assert r.value == values;
    }
  }

  /* ---------- words for the checksum ---------- */

  function Bits(x: nat): bv32
    requires x < 32
  {
    x as bv32
  }

  lemma WordBack(x: nat)
    requires x < 32
    ensures (x as bv32) as nat == x && x as bv32 < 32
  {
  }

  lemma BitsBack(x: nat)
    requires x < 32
    ensures Bits(x) < 32 && Bits(x) as nat == x
  {
    WordBack(x);
  }

  lemma BitsOfWord(w: bv32)
    requires w < 32
    ensures w as nat < 32 && Bits(w as nat) == w
  {
  }

  function AllBits(values: seq<nat>): (r: seq<bv32>)
    requires Fives(values)
    ensures |r| == |values| && forall i :: 0 <= i < |values| ==> r[i] == Bits(values[i])
  {
    if values == [] then [] else [Bits(values[0])] + AllBits(values[1..])
  }

  function SymbolOf(w: bv32): (x: nat)
    ensures x < 32
  {
    BitsOfWord(w & 31);
    (w & 31) as nat
  }

  lemma SymbolOfBits(w: bv32)
    requires w < 32
    ensures Bits(SymbolOf(w)) == w
  {
    assert w & 31 == w;
    BitsOfWord(w);
  }

  function SixSymbols(w: seq<bv32>): (r: seq<nat>)
    ensures |r| == |w| && forall i :: 0 <= i < |w| ==> r[i] == SymbolOf(w[i])
    ensures Fives(r)
  {
    if w == [] then [] else [SymbolOf(w[0])] + SixSymbols(w[1..])
  }

  function HighBits(h: string): seq<bv32> {
    if h == "" then [] else [(h[0] as int / 32) as bv32] + HighBits(h[1..])
  }

  function LowBitsOf(h: string): seq<bv32> {
    if h == "" then [] else [(h[0] as int % 32) as bv32] + LowBitsOf(h[1..])
  }

  function HrpValues(h: string): seq<bv32> {
    HighBits(h) + [0] + LowBitsOf(h)
  }

  /* ---------- encoding and decoding ---------- */

  function Payload(bytes: seq<nat>): seq<nat> {
    Regrouped(bytes, 8, 5, true)
  }

  lemma PayloadIsFives(bytes: seq<nat>)
    ensures Fives(Payload(bytes))
  {
    Widths();
    var bits := Mul(|bytes|, 8);
    var count := OutLength(bits, 5, true);
    OutLengthBounds(bits, 5);
    hide Mul, Pow2, Value, Digits;
    ValueOfDigits(Mul(Value(bytes, 8), Pow2(Mul(count, 5) - bits)), count, 5);
  }

  function DataPart(hrp: string, bytes: seq<nat>): (d: seq<nat>)
    ensures Fives(d)
  {
    PayloadIsFives(bytes);
    var payload := Payload(bytes);
    payload + SixSymbols(ChecksumSymbols(HrpValues(hrp) + AllBits(payload)))
  }

  function Encode(hrp: string, bytes: seq<nat>): string {
    hrp + "1" + Text(DataPart(hrp, bytes))
  }

  /** Where the last `1` stands. */
  function LastOne(s: string): Option<nat> {
    if s == "" then None else if s[|s| - 1] == '1' then Some(|s| - 1) else LastOne(s[..|s| - 1])
  }

  function Verified(hrp: string, data: seq<nat>): bool
    requires Fives(data)
  {
    Checksum(1, HrpValues(hrp) + AllBits(data)) == CHECK
  }

  /** The payload of an address, or `None` where decoding throws. The prefix takes part in the checksum only. */
  function Decode(s: string): Option<seq<nat>> {
    var pos := LastOne(s);
    if pos.None? || pos.value == 0 then None
    else if pos.value >= |s| then None
    else
      var data := Symbols(s[pos.value + 1..]);
      if data.None? then None
      else if !Verified(s[..pos.value], data.value) then None
      else
        var payload := if |data.value| < 6 then [] else data.value[..|data.value| - 6];
        var raw := Regrouped(payload, 5, 8, false);
        if |raw| != PAYLOAD_BYTES || raw[0] != 1 then None else Some(raw)
  }

  lemma {:induction false} LastOneOf(h: string, tail: string)
    requires '1' !in tail
    ensures LastOne(h + "1" + tail) == Some(|h|)
    decreases |tail|
  {
    if tail == "" {
      assert h + "1" + tail == h + "1";
    } else {
      var n := |tail| - 1;
      assert (h + "1" + tail)[..|h + "1" + tail| - 1] == h + "1" + tail[..n];
      LastOneOf(h, tail[..n]);
    }
  }

  lemma {:induction false} LastOneMeans(s: string)
    requires LastOne(s).Some?
    ensures LastOne(s).value < |s| && s[LastOne(s).value] == '1' && '1' !in s[LastOne(s).value + 1..]
    decreases |s|
  {
    if s[|s| - 1] != '1' {
      LastOneMeans(s[..|s| - 1]);
      var pos := LastOne(s).value;
      assert s[pos + 1..] == s[..|s| - 1][pos + 1..] + [s[|s| - 1]];
    }
  }

  lemma TextHasNoOne(values: seq<nat>)
    requires Fives(values)
    ensures '1' !in Text(values)
  {
    CharsetDistinct();
    hide CHARSET, Text;
  }

  lemma AllBitsAppend(a: seq<nat>, w: seq<bv32>)
    requires Fives(a) && forall i :: 0 <= i < |w| ==> w[i] < 32
    ensures Fives(a + SixSymbols(w)) && AllBits(a + SixSymbols(w)) == AllBits(a) + w
  {
    forall i | 0 <= i < |w| ensures Bits(SymbolOf(w[i])) == w[i] {
      SymbolOfBits(w[i]);
    }
    hide SymbolOf, Bits;
  }

  /** What `Encode` writes verifies. */
  lemma EncodedVerifies(hrp: string, bytes: seq<nat>)
    ensures Verified(hrp, DataPart(hrp, bytes))
  {
    hide Payload, Checksum, HrpValues, ChecksumSymbols, Bits, SymbolOf, SixSymbols, AllBits;
    PayloadIsFives(bytes);
    var payload := Payload(bytes);
    var values := HrpValues(hrp) + AllBits(payload);
    ChecksumCloses(values);
    AllBitsAppend(payload, ChecksumSymbols(values));
    assert HrpValues(hrp) + (AllBits(payload) + ChecksumSymbols(values)) == values + ChecksumSymbols(values);
  }

  /** Decoding an encoded address gives its payload, for every prefix and every payload of the current version. */
  lemma AddressRoundTrip(hrp: string, bytes: seq<nat>)
    requires hrp != "" && |bytes| == PAYLOAD_BYTES && bytes[0] == 1 && forall i :: 0 <= i < |bytes| ==> bytes[i] < 256
    ensures Decode(Encode(hrp, bytes)) == Some(bytes)
  {
    hide Payload, Verified, Text, Symbols, Regrouped, Pow2, CHARSET, DataPart, LastOne;
    Widths();
    RoundTrip(bytes);
    EncodedVerifies(hrp, bytes);
    PayloadInFront(hrp, bytes);
    var d := DataPart(hrp, bytes);
    TextHasNoOne(d);
    LastOneOf(hrp, Text(d));
    SymbolsOfText(d);
    var s := Encode(hrp, bytes);
    assert s[..|hrp|] == hrp && s[|hrp| + 1..] == Text(d);
  }

  lemma PayloadInFront(hrp: string, bytes: seq<nat>)
    ensures var d := DataPart(hrp, bytes); |d| >= 6 && d[..|d| - 6] == Regrouped(bytes, 8, 5, true)
  {
    hide Regrouped, ChecksumSymbols, HrpValues, AllBits, SixSymbols, Bits;
  }

  /** Changing any one symbol of a valid address makes it invalid. */
  lemma TypoIsNoticed(s: string, i: nat, c: char)
    requires Decode(s).Some? && LastOne(s).value < i < |s| && c != s[i] && c != '1'
    ensures Decode(s[i := c]).None?
  {
    hide CHARSET, Regrouped, Verified, Position, LastOne, Symbols;
    var pos, t := LastOne(s).value, s[i := c];
    LastOneMeans(s);
    assert s == s[..pos] + "1" + s[pos + 1..];
    assert t == s[..pos] + "1" + t[pos + 1..];
    LastOneOf(s[..pos], t[pos + 1..]);
    var k := i - pos - 1;
    assert t[..pos] == s[..pos];
    if Symbols(t[pos + 1..]).Some? {
      var before, after := Symbols(s[pos + 1..]).value, Symbols(t[pos + 1..]).value;
      assert Position(s[i], 0) == Some(before[k]) && Position(c, 0) == Some(after[k]);
      PositionMeans(s[i], 0);
      PositionMeans(c, 0);
      forall j | 0 <= j < |before| && j != k ensures after[j] == before[j] {
        assert t[pos + 1..][j] == s[pos + 1..][j];
      }
      OneSymbolFails(s[..pos], before, after, k);
    }
  }

  lemma OneSymbolFails(hrp: string, before: seq<nat>, after: seq<nat>, k: nat)
    requires Fives(before) && Fives(after) && |before| == |after| && k < |before| && before[k] != after[k]
    requires forall j :: 0 <= j < |before| && j != k ==> after[j] == before[j]
    requires Verified(hrp, before)
    ensures !Verified(hrp, after)
  {
    hide HrpValues, Checksum, Bits;
    BitsBack(before[k]);
    BitsBack(after[k]);
    var h := HrpValues(hrp);
    var v := h + AllBits(before);
    OneSymbolMatters(1, v, |h| + k, Bits(after[k]));
    assert v[|h| + k := Bits(after[k])] == h + AllBits(after);
  }
}
