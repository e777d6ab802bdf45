/** Regrouping digits of one width into digits of another, as one number written twice. */
module Regroup {
  import opened Arithmetic

  /* ---------- digits and values ---------- */

  /** The number that digits of `w` bits write, most significant first. */
  function Value(s: seq<nat>, w: nat): nat {
    if s == [] then 0 else Mul(Value(s[..|s| - 1], w), Pow2(w)) + s[|s| - 1]
  }

  /** The last `count` digits of a number. */
  function Digits(n: nat, count: nat, w: nat): (s: seq<nat>)
    ensures |s| == count
    decreases count
  {
    if count == 0 then [] else Digits(Div(n, Pow2(w)), count - 1, w) + [Mod(n, Pow2(w))]
  }

  predicate Narrow(s: seq<nat>, w: nat) {
    forall i :: 0 <= i < |s| ==> s[i] < Pow2(w)
  }

  lemma DigitsStep(n: nat, count: nat, w: nat)
    requires count > 0
    ensures Digits(n, count, w) == Digits(Div(n, Pow2(w)), count - 1, w) + [Mod(n, Pow2(w))]
  {
    hide Mul, Div, Mod, Pow2;
  }

  lemma ValueStep(s: seq<nat>, w: nat)
    requires s != []
    ensures Value(s, w) == Mul(Value(s[..|s| - 1], w), Pow2(w)) + s[|s| - 1]
  {
    hide Mul, Pow2;
  }

  lemma {:induction false} DigitsOfValue(s: seq<nat>, w: nat)
    requires Narrow(s, w)
    ensures Digits(Value(s, w), |s|, w) == s
    decreases |s|
  {
    hide Mul, Div, Mod, Pow2;
    if s != [] {
      var n := |s| - 1;
      hide Value, Digits;
      DigitsOfValue(s[..n], w);
      ValueStep(s, w);
      DigitsStep(Value(s, w), |s|, w);
      DivideBack(Value(s[..n], w), s[n], Pow2(w));
      assert s == s[..n] + [s[n]];
    }
  }

  lemma {:induction false} ValueOfDigits(n: nat, count: nat, w: nat)
    ensures Narrow(Digits(n, count, w), w)
    ensures n < Pow2(Mul(count, w)) ==> Value(Digits(n, count, w), w) == n
    decreases count
  {
    hide Mul, Div, Mod;
    if count == 0 {
      MulOrdered(0, 0, w);
      assert Pow2(0) == 1;
    } else {
      hide Pow2, Value, Digits;
      var rest := Div(n, Pow2(w));
      ValueOfDigits(rest, count - 1, w);
      DigitsStep(n, count, w);
      ValueStep(Digits(n, count, w), w);
      assert Digits(n, count, w)[..count - 1] == Digits(rest, count - 1, w);
      MulOrdered(count - 1, 1, w);
      PowAdds(Mul(count - 1, w), w);
      DivMod(n, Pow2(w));
      MulOrdered(Pow2(Mul(count - 1, w)), rest, Pow2(w));
    }
  }

  lemma {:induction false} ValueBounded(s: seq<nat>, w: nat)
    requires Narrow(s, w)
    ensures Value(s, w) < Pow2(Mul(|s|, w))
  {
    hide Mul;
    if s == [] {
      MulOrdered(0, 0, w);
    } else {
      hide Pow2;
      var n := |s| - 1;
      ValueBounded(s[..n], w);
      MulOrdered(n, 1, w);
      PowAdds(Mul(n, w), w);
      MulOrdered(Value(s[..n], w) + 1, Pow2(Mul(n, w)), Pow2(w));
      MulOrdered(Value(s[..n], w), 1, Pow2(w));
    }
  }

  lemma ValueAppend(s: seq<nat>, x: nat, w: nat)
    ensures Value(s + [x], w) == Mul(Value(s, w), Pow2(w)) + x
  {
    assert (s + [x])[..|s|] == s;
  }

  /* ---------- regrouping ---------- */

  /** How many digits of the new width come out of so many bits. */
  function OutLength(bits: nat, to: nat, pad: bool): nat
    requires to > 0
  {
    if pad then Div(bits + to - 1, to) else Div(bits, to)
  }

  lemma OutLengthBounds(bits: nat, to: nat)
    requires to > 0
    ensures bits <= Mul(OutLength(bits, to, true), to) < bits + to
    ensures Mul(OutLength(bits, to, false), to) <= bits < Mul(OutLength(bits, to, false), to) + to
  {
    hide Mul, Div, Mod;
    DivMod(bits + to - 1, to);
    DivMod(bits, to);
  }

  /** The same number in digits of another width: filled up with zero bits at the end, or cut short there. */
  function Regrouped(data: seq<nat>, from: nat, to: nat, pad: bool): seq<nat>
    requires to > 0
  {
    var bits := Mul(|data|, from);
    var count := OutLength(bits, to, pad);
    OutLengthBounds(bits, to);
    if pad then Digits(Mul(Value(data, from), Pow2(Mul(count, to) - bits)), count, to)
    else Digits(Div(Value(data, from), Pow2(bits - Mul(count, to))), count, to)
  }

  lemma RegroupedIsNarrow(data: seq<nat>, from: nat, to: nat, pad: bool)
    requires to > 0
    ensures Narrow(Regrouped(data, from, to, pad), to)
  {
    hide Mul, Div, Pow2, Value, Digits;
    var bits := Mul(|data|, from);
    var count := OutLength(bits, to, pad);
    OutLengthBounds(bits, to);
    if pad {
      ValueOfDigits(Mul(Value(data, from), Pow2(Mul(count, to) - bits)), count, to);
    } else {
      ValueOfDigits(Div(Value(data, from), Pow2(bits - Mul(count, to))), count, to);
    }
  }

  /** Writing bytes in five-bit digits and reading them back as bytes gives the bytes, whatever their number. */
  lemma RoundTrip(bytes: seq<nat>)
    requires Narrow(bytes, 8)
    ensures Regrouped(Regrouped(bytes, 8, 5, true), 5, 8, false) == bytes
  {
    hide Pow2, Value, Digits;
    var n, value := |bytes|, Value(bytes, 8);
    var bits := Mul(n, 8);
    OutLengthBounds(bits, 5);
    var count := OutLength(bits, 5, true);
    var pad := Mul(count, 5) - bits;
    hide Mul, Div, Mod;
    var five := Digits(Mul(value, Pow2(pad)), count, 5);
    assert Regrouped(bytes, 8, 5, true) == five;
    ValueBounded(bytes, 8);
    PowAdds(bits, pad);
    MulOrdered(value + 1, Pow2(bits), Pow2(pad));
    MulOrdered(value, 1, Pow2(pad));
    ValueOfDigits(Mul(value, Pow2(pad)), count, 5);
    DivideBack(n, pad, 8);
    assert OutLength(Mul(count, 5), 8, false) == n;
    DivideBack(value, 0, Pow2(pad));
    DigitsOfValue(bytes, 8);
  }

  /* ---------- the loop of the wallet ---------- */

  lemma LowBits(n: nat, k: nat, word: nat)
    requires k <= word
    ensures Mod(Mod(n, Pow2(word)), Pow2(k)) == Mod(n, Pow2(k))
  {
    hide Mul, Div, Mod, Pow2;
    SplitPower(n, k, word - k);
    DivideBack(Mod(Div(n, Pow2(k)), Pow2(word - k)), Mod(n, Pow2(k)), Pow2(k));
  }

  /** Shifting an accumulator and adding a digit, seen in its low bits. */
  lemma ShiftIn(acc: nat, bits: nat, from: nat, v: nat)
    requires v < Pow2(from)
    ensures Mod(Mul(acc, Pow2(from)) + v, Pow2(bits + from)) == Mul(Mod(acc, Pow2(bits)), Pow2(from)) + v
  {
    hide Mul, Div, Mod, Pow2;
    var q, r := Div(acc, Pow2(bits)), Mod(acc, Pow2(bits));
    DivMod(acc, Pow2(bits));
    PowAdds(bits, from);
    MulOrdered(Mul(q, Pow2(bits)), r, Pow2(from));
    MulOrdered(q, Pow2(bits), Pow2(from));
    MulOrdered(r + 1, Pow2(bits), Pow2(from));
    MulOrdered(r, 1, Pow2(from));
    DivideBack(q, Mul(r, Pow2(from)) + v, Pow2(bits + from));
  }

  /** What the accumulator loop knows: the digits so far and the pending low bits are the number read so far. */
  predicate Accumulated(read: seq<nat>, from: nat, out: seq<nat>, to: nat, acc: nat, bits: nat) {
    && Narrow(out, to)
    && Mul(|out|, to) + bits == Mul(|read|, from)
    && Value(read, from) == Mul(Value(out, to), Pow2(bits)) + Mod(acc, Pow2(bits))
  }

  lemma ReadDigit(read: seq<nat>, from: nat, out: seq<nat>, to: nat, acc: nat, bits: nat, v: nat)
    requires Accumulated(read, from, out, to, acc, bits) && v < Pow2(from) && bits + from <= 32
    ensures Accumulated(read + [v], from, out, to, Mod(Mul(acc, Pow2(from)) + v, Pow2(32)), bits + from)
  {
    hide Mul, Div, Mod, Pow2, Value;
    ValueAppend(read, v, from);
    LowBits(Mul(acc, Pow2(from)) + v, bits + from, 32);
    ShiftIn(acc, bits, from, v);
    PowAdds(bits, from);
    MulOrdered(Mul(Value(out, to), Pow2(bits)), Mod(acc, Pow2(bits)), Pow2(from));
    MulOrdered(Value(out, to), Pow2(bits), Pow2(from));
    MulOrdered(|read|, 1, from);
  }

  lemma WriteDigit(read: seq<nat>, from: nat, out: seq<nat>, to: nat, acc: nat, bits: nat)
    requires Accumulated(read, from, out, to, acc, bits + to)
    ensures Accumulated(read, from, out + [Mod(Div(acc, Pow2(bits)), Pow2(to))], to, acc, bits)
  {
    hide Mul, Div, Mod, Pow2, Value;
    var digit := Mod(Div(acc, Pow2(bits)), Pow2(to));
    ValueAppend(out, digit, to);
    SplitPower(acc, bits, to);
    PowAdds(to, bits);
    MulOrdered(Mul(Value(out, to), Pow2(to)), digit, Pow2(bits));
    MulOrdered(Value(out, to), Pow2(to), Pow2(bits));
    MulOrdered(|out|, 1, to);
  }

  lemma CutIsRegrouped(data: seq<nat>, from: nat, out: seq<nat>, to: nat, acc: nat, bits: nat)
    requires Accumulated(data, from, out, to, acc, bits) && bits < to
    ensures out == Regrouped(data, from, to, false)
    ensures bits == 0 ==> out == Regrouped(data, from, to, true)
  {
    hide Mul, Div, Mod, Pow2, Value, Digits;
    DivideBack(|out|, bits, to);
    DivideBack(|out|, to - 1, to);
    DivideBack(Value(out, to), Mod(acc, Pow2(bits)), Pow2(bits));
    DigitsOfValue(out, to);
    if bits == 0 {
      OnePower();
      MulOrdered(1, Value(out, to), 1);
      MulOrdered(1, 0, Value(data, from));
      MulOrdered(1, 0, Value(out, to));
    }
  }

  lemma OnePower()
    ensures Pow2(0) == 1
  {
  }

  lemma PaddedIsRegrouped(data: seq<nat>, from: nat, out: seq<nat>, to: nat, acc: nat, bits: nat)
    requires Accumulated(data, from, out, to, acc, bits) && 0 < bits < to
    ensures out + [Mod(Mul(acc, Pow2(to - bits)), Pow2(to))] == Regrouped(data, from, to, true)
  {
    hide Mul, Div, Mod, Pow2, Value, Digits;
    var pad := to - bits;
    var last := Mod(Mul(acc, Pow2(pad)), Pow2(to));
    var padded := out + [last];
    ShiftIn(acc, bits, pad, 0);
    ValueAppend(out, last, to);
    PowAdds(bits, pad);
    MulOrdered(Mul(Value(out, to), Pow2(bits)), Mod(acc, Pow2(bits)), Pow2(pad));
    MulOrdered(Value(out, to), Pow2(bits), Pow2(pad));
    assert Value(padded, to) == Mul(Value(data, from), Pow2(pad));
    MulOrdered(|out|, 1, to);
    DivideBack(|out| + 1, bits - 1, to);
    DigitsOfValue(padded, to);
  }

  /** The accumulator is a 32-bit word, of which only the low bits are ever read. */
  method Convert(data: seq<nat>, from: nat, to: nat, pad: bool) returns (out: seq<nat>)
    requires 0 < to && from + to <= 32 && Narrow(data, from)
    ensures out == Regrouped(data, from, to, pad)
  {
    hide Mul, Div, Mod, Pow2, Value, Digits, Regrouped, Accumulated;
    var acc: nat, bits: nat := 0, 0;
    out := [];
    StartAccumulating(from, to);
    for i := 0 to |data|
      invariant bits < to && Accumulated(data[..i], from, out, to, acc, bits)
    {
      ReadDigit(data[..i], from, out, to, acc, bits, data[i]);
      assert data[..i] + [data[i]] == data[..i + 1];
      acc := Mod(Mul(acc, Pow2(from)) + data[i], Pow2(32));
      bits := bits + from;
      while bits >= to
        invariant Accumulated(data[..i + 1], from, out, to, acc, bits)
      {
        bits := bits - to;
        WriteDigit(data[..i + 1], from, out, to, acc, bits);
        out := out + [Mod(Div(acc, Pow2(bits)), Pow2(to))];
      }
    }
    assert data[..|data|] == data;
    if pad && bits > 0 {
      PaddedIsRegrouped(data, from, out, to, acc, bits);
      out := out + [Mod(Mul(acc, Pow2(to - bits)), Pow2(to))];
    } else {
      CutIsRegrouped(data, from, out, to, acc, bits);
    }
  }

  lemma StartAccumulating(from: nat, to: nat)
    ensures Accumulated([], from, [], to, 0, 0)
  {
    hide Mul, Div, Mod;
    MulOrdered(0, 0, to);
    MulOrdered(0, 0, from);
    MulOrdered(0, 0, 1);
    DivideBack(0, 0, 1);
  }
}
