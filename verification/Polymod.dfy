/** The address checksum over 30-bit words. */
module Polymod {

  const CHECK: bv32 := 0x2bc830a3

  /** Exclusive or, named so that a proof can use its laws and leave its bits alone. */
  function Xor(a: bv32, b: bv32): bv32 {
    a ^ b
  }

  function Pick(taken: bool, g: bv32): bv32 {
    if taken then g else 0
  }

  predicate Bit0(b: bv32) { b & 1 == 1 }
  predicate Bit1(b: bv32) { b & 2 == 2 }
  predicate Bit2(b: bv32) { b & 4 == 4 }
  predicate Bit3(b: bv32) { b & 8 == 8 }
  predicate Bit4(b: bv32) { b & 16 == 16 }

  /** The five generator words, each taken when its bit is set. */
  function Generator(b: bv32): bv32 {
    Xor(Xor(Pick(Bit0(b), 0x3b6a57b2), Pick(Bit1(b), 0x26508e6d)),
        Xor(Xor(Pick(Bit2(b), 0x1ea119fa), Pick(Bit3(b), 0x3d4233dd)), Pick(Bit4(b), 0x2a1462b3)))
  }

  /** One symbol enters the checksum. */
  function Absorb(c: bv32, x: bv32): bv32 {
    Xor(Xor((c & 0x1ffffff) << 5, x), Generator(c >> 25))
  }

  function Checksum(c: bv32, values: seq<bv32>): bv32
    decreases |values|
  {
    if values == [] then c else Checksum(Absorb(c, values[0]), values[1..])
  }

  lemma XorCancels(g: bv32)
    ensures g ^ g == 0 && g ^ 0 == g && 0 ^ g == g
  {
  }

  lemma PickIsLinear(p: bool, q: bool, g: bv32)
    ensures Pick(p != q, g) == Xor(Pick(p, g), Pick(q, g))
  {
    XorCancels(g);
    XorCancels(0);
    if p {
      if q {
        assert Pick(p != q, g) == 0;
      } else {
      }
    } else {
    }
  }

  lemma BitsAreLinear(a: bv32, b: bv32)
    ensures Bit0(Xor(a, b)) == (Bit0(a) != Bit0(b)) && Bit1(Xor(a, b)) == (Bit1(a) != Bit1(b))
    ensures Bit2(Xor(a, b)) == (Bit2(a) != Bit2(b)) && Bit3(Xor(a, b)) == (Bit3(a) != Bit3(b))
    ensures Bit4(Xor(a, b)) == (Bit4(a) != Bit4(b))
  {
  }

  lemma BitwisePairs(a: bv32, b: bv32, c: bv32, d: bv32)
    ensures (a ^ b) ^ (c ^ d) == (a ^ c) ^ (b ^ d)
  {
  }

  lemma XorPairs(a: bv32, b: bv32, c: bv32, d: bv32)
    ensures Xor(Xor(a, b), Xor(c, d)) == Xor(Xor(a, c), Xor(b, d))
  {
    BitwisePairs(a, b, c, d);
    XorOfXors(a, b, c, d);
    XorOfXors(a, c, b, d);
    hide Xor;
  }

  lemma XorOfXors(a: bv32, b: bv32, c: bv32, d: bv32)
    ensures Xor(Xor(a, b), Xor(c, d)) == (a ^ b) ^ (c ^ d)
  {
  }

  lemma XorFives(a0: bv32, b0: bv32, a1: bv32, b1: bv32, a2: bv32, b2: bv32, a3: bv32, b3: bv32, a4: bv32, b4: bv32)
    ensures Xor(Xor(Xor(a0, b0), Xor(a1, b1)), Xor(Xor(Xor(a2, b2), Xor(a3, b3)), Xor(a4, b4)))
            == Xor(Xor(Xor(a0, a1), Xor(Xor(a2, a3), a4)), Xor(Xor(b0, b1), Xor(Xor(b2, b3), b4)))
  {
    hide Xor;
    XorPairs(a0, b0, a1, b1);
    XorPairs(a2, b2, a3, b3);
    XorPairs(Xor(a2, a3), Xor(b2, b3), a4, b4);
    XorPairs(Xor(a0, a1), Xor(b0, b1), Xor(Xor(a2, a3), a4), Xor(Xor(b2, b3), b4));
  }

  /** Each generator word by itself is linear in its bit. */
  lemma WordsAreLinear(a: bv32, b: bv32, w0: bv32, w1: bv32, w2: bv32, w3: bv32, w4: bv32)
    ensures Pick(Bit0(Xor(a, b)), w0) == Xor(Pick(Bit0(a), w0), Pick(Bit0(b), w0))
    ensures Pick(Bit1(Xor(a, b)), w1) == Xor(Pick(Bit1(a), w1), Pick(Bit1(b), w1))
    ensures Pick(Bit2(Xor(a, b)), w2) == Xor(Pick(Bit2(a), w2), Pick(Bit2(b), w2))
    ensures Pick(Bit3(Xor(a, b)), w3) == Xor(Pick(Bit3(a), w3), Pick(Bit3(b), w3))
    ensures Pick(Bit4(Xor(a, b)), w4) == Xor(Pick(Bit4(a), w4), Pick(Bit4(b), w4))
  {
    hide Xor, Pick, Bit0, Bit1, Bit2, Bit3, Bit4;
    BitsAreLinear(a, b);
    PickIsLinear(Bit0(a), Bit0(b), w0);
    PickIsLinear(Bit1(a), Bit1(b), w1);
    PickIsLinear(Bit2(a), Bit2(b), w2);
    PickIsLinear(Bit3(a), Bit3(b), w3);
    PickIsLinear(Bit4(a), Bit4(b), w4);
  }

  lemma GeneratorIsLinear(a: bv32, b: bv32)
    ensures Generator(Xor(a, b)) == Xor(Generator(a), Generator(b))
  {
    hide Xor, Pick, Bit0, Bit1, Bit2, Bit3, Bit4;
    WordsAreLinear(a, b, 0x3b6a57b2, 0x26508e6d, 0x1ea119fa, 0x3d4233dd, 0x2a1462b3);
    XorFives(Pick(Bit0(a), 0x3b6a57b2), Pick(Bit0(b), 0x3b6a57b2), Pick(Bit1(a), 0x26508e6d), Pick(Bit1(b), 0x26508e6d),
             Pick(Bit2(a), 0x1ea119fa), Pick(Bit2(b), 0x1ea119fa), Pick(Bit3(a), 0x3d4233dd), Pick(Bit3(b), 0x3d4233dd),
             Pick(Bit4(a), 0x2a1462b3), Pick(Bit4(b), 0x2a1462b3));
  }

  lemma ShiftIsLinear(a: bv32, b: bv32)
    ensures (Xor(a, b) & 0x1ffffff) << 5 == Xor((a & 0x1ffffff) << 5, (b & 0x1ffffff) << 5)
    ensures Xor(a, b) >> 25 == Xor(a >> 25, b >> 25)
  {
  }

  lemma AbsorbIsLinear(a: bv32, b: bv32, x: bv32, y: bv32)
    ensures Absorb(Xor(a, b), Xor(x, y)) == Xor(Absorb(a, x), Absorb(b, y))
  {
    hide Xor, Generator;
    ShiftIsLinear(a, b);
    GeneratorIsLinear(a >> 25, b >> 25);
    XorPairs((a & 0x1ffffff) << 5, (b & 0x1ffffff) << 5, x, y);
    XorPairs(Xor((a & 0x1ffffff) << 5, x), Xor((b & 0x1ffffff) << 5, y), Generator(a >> 25), Generator(b >> 25));
  }

  lemma AbsorbZeroInjective(c: bv32)
    requires c < 0x40000000 && Absorb(c, 0) == 0
    ensures c == 0
  {
  }

  lemma AbsorbBounded(c: bv32, x: bv32)
    requires x < 0x40000000
    ensures Absorb(c, x) < 0x40000000
  {
  }

  /** One symbol behind a word that has room for it. */
  function Push(c: bv32, x: bv32): bv32 {
    (c << 5) ^ x
  }

  lemma SmallWord(c: bv32)
    requires c < 0x2000000
    ensures c >> 25 == 0 && (c & 0x1ffffff) << 5 == c << 5
  {
  }

  lemma NoGenerator()
    ensures Generator(0) == 0
  {
  }

  lemma XorUndoes(a: bv32, b: bv32)
    ensures Xor(a, Xor(a, b)) == b && Xor(a, 0) == a && Xor(0, a) == a
  {
  }

  /** A word with room at the top just moves up. */
  lemma AbsorbSmall(c: bv32, x: bv32)
    requires c < 0x2000000
    ensures Absorb(c, x) == Push(c, x)
  {
    SmallWord(c);
    NoGenerator();
    XorUndoes(Xor(c << 5, x), 0);
    assert Xor(c << 5, x) == Push(c, x);
    hide Xor, Generator, Push;
  }

  lemma {:induction false} ChecksumAppend(c: bv32, a: seq<bv32>, b: seq<bv32>)
    ensures Checksum(c, a + b) == Checksum(Checksum(c, a), b)
    decreases |a|
  {
    hide Absorb;
    if a == [] {
      assert a + b == b;
    } else {
      assert (a + b)[1..] == a[1..] + b;
      ChecksumAppend(Absorb(c, a[0]), a[1..], b);
    }
  }

  function XorAll(a: seq<bv32>, b: seq<bv32>): (r: seq<bv32>)
    requires |a| == |b|
    ensures |r| == |a| && forall i :: 0 <= i < |a| ==> r[i] == Xor(a[i], b[i])
  {
    if a == [] then [] else [Xor(a[0], b[0])] + XorAll(a[1..], b[1..])
  }

  lemma {:induction false} ChecksumIsLinear(c: bv32, d: bv32, a: seq<bv32>, b: seq<bv32>)
    requires |a| == |b|
    ensures Checksum(Xor(c, d), XorAll(a, b)) == Xor(Checksum(c, a), Checksum(d, b))
    decreases |a|
  {
    hide Absorb, Xor;
    if a != [] {
      AbsorbIsLinear(c, d, a[0], b[0]);
      ChecksumIsLinear(Absorb(c, a[0]), Absorb(d, b[0]), a[1..], b[1..]);
    }
  }

  /* ---------- six symbols of checksum ---------- */

  const ZEROS: seq<bv32> := [0, 0, 0, 0, 0, 0]

  /** The six symbols of a 30-bit word, highest first. */
  function Split(w: bv32): (six: seq<bv32>)
    ensures |six| == 6 && forall i :: 0 <= i < 6 ==> six[i] < 32
  {
    [(w >> 25) & 31, (w >> 20) & 31, (w >> 15) & 31, (w >> 10) & 31, (w >> 5) & 31, w & 31]
  }

  lemma SplitJoins(w: bv32)
    requires w < 0x40000000
    ensures var s := Split(w);
            var a, b := Push(s[0], s[1]), Push(Push(s[0], s[1]), s[2]);
            var c, d := Push(b, s[3]), Push(Push(b, s[3]), s[4]);
            && Push(0, s[0]) == s[0] && s[0] < 0x2000000 && a < 0x2000000 && b < 0x2000000 && c < 0x2000000
              && d < 0x2000000
            && Push(d, s[5]) == w
  {
  }

  lemma ChecksumStep(c: bv32, v: seq<bv32>)
    requires v != []
    ensures Checksum(c, v) == Checksum(Absorb(c, v[0]), v[1..])
  {
  }

  lemma ChecksumOfSix(c: bv32, v: seq<bv32>)
    requires |v| == 6
    ensures Checksum(c, v) == Absorb(Absorb(Absorb(Absorb(Absorb(Absorb(c, v[0]), v[1]), v[2]), v[3]), v[4]), v[5])
  {
    hide Absorb;
    var c1 := Absorb(c, v[0]);
    var c2 := Absorb(c1, v[1]);
    var c3 := Absorb(c2, v[2]);
    var c4 := Absorb(c3, v[3]);
    assert Checksum(c, v) == Checksum(c1, v[1..]);
    assert v[1..][1..] == v[2..] && v[2..][1..] == v[3..] && v[3..][1..] == v[4..] && v[4..][1..] == v[5..]
           && v[5..][1..] == [];
    ChecksumStep(c1, v[1..]);
    ChecksumStep(c2, v[2..]);
    ChecksumStep(c3, v[3..]);
    ChecksumStep(c4, v[4..]);
    ChecksumStep(Absorb(c4, v[4]), v[5..]);
  }

  /** Absorbed from zero, the six symbols of a word give the word back. */
  lemma SixFromZero(w: bv32)
    requires w < 0x40000000
    ensures Checksum(0, Split(w)) == w
  {
    var s := Split(w);
    SplitJoins(w);
    ChecksumOfSix(0, s);
    hide Absorb, Split, Checksum, Push;
    AbsorbSmall(0, s[0]);
    AbsorbSmall(s[0], s[1]);
    AbsorbSmall(Push(s[0], s[1]), s[2]);
    AbsorbSmall(Push(Push(s[0], s[1]), s[2]), s[3]);
    AbsorbSmall(Push(Push(Push(s[0], s[1]), s[2]), s[3]), s[4]);
    AbsorbSmall(Push(Push(Push(Push(s[0], s[1]), s[2]), s[3]), s[4]), s[5]);
  }

  lemma FirstSymbol(x: bv32)
    ensures Push(0, x) == x
  {
  }

  /** The checksum symbols that belong to some values. */
  function ChecksumSymbols(values: seq<bv32>): (six: seq<bv32>)
    ensures |six| == 6 && forall i :: 0 <= i < 6 ==> six[i] < 32
  {
    Split(Xor(Checksum(1, values + ZEROS), CHECK))
  }

  lemma ZerosBounded(c: bv32)
    ensures Checksum(c, ZEROS) < 0x40000000
  {
    ChecksumOfSix(c, ZEROS);
    hide Absorb;
    AbsorbBounded(Absorb(Absorb(Absorb(Absorb(Absorb(c, 0), 0), 0), 0), 0), 0);
  }

  lemma XorBounded(a: bv32, b: bv32)
    requires a < 0x40000000 && b < 0x40000000
    ensures Xor(a, b) < 0x40000000
  {
  }

  /** Values followed by their checksum symbols check out. */
  lemma ChecksumCloses(values: seq<bv32>)
    ensures Checksum(1, values + ChecksumSymbols(values)) == CHECK
  {
    hide Absorb, Xor, Split, Checksum;
    var c := Checksum(1, values);
    var pz := Checksum(c, ZEROS);
    var w := Xor(pz, CHECK);
    ChecksumAppend(1, values, ZEROS);
    ChecksumAppend(1, values, Split(w));
    ZerosBounded(c);
    XorBounded(pz, CHECK);
    SixFromZero(w);
    ChecksumIsLinear(c, 0, ZEROS, Split(w));
    XorUndoes(c, 0);
    forall i | 0 <= i < 6 ensures XorAll(ZEROS, Split(w))[i] == Split(w)[i] {
      XorUndoes(Split(w)[i], 0);
    }
    assert XorAll(ZEROS, Split(w)) == Split(w);
    XorUndoes(pz, CHECK);
  }

  /* ---------- one wrong symbol ---------- */

  lemma {:induction false} ZeroTail(c: bv32, zeros: seq<bv32>)
    requires c != 0 && c < 0x40000000 && forall i :: 0 <= i < |zeros| ==> zeros[i] == 0
    ensures Checksum(c, zeros) != 0
    decreases |zeros|
  {
    hide Absorb;
    if zeros != [] {
      if Absorb(c, 0) == 0 {
        AbsorbZeroInjective(c);
      }
      AbsorbBounded(c, 0);
      ZeroTail(Absorb(c, 0), zeros[1..]);
    }
  }

  lemma {:induction false} ZeroHead(zeros: seq<bv32>)
    requires forall i :: 0 <= i < |zeros| ==> zeros[i] == 0
    ensures Checksum(0, zeros) == 0
    decreases |zeros|
  {
    hide Absorb;
    if zeros != [] {
      AbsorbSmall(0, 0);
      FirstSymbol(0);
      ZeroHead(zeros[1..]);
    }
  }

  lemma XorApart(a: bv32, b: bv32)
    requires a < 32 && b < 32 && a != b
    ensures Xor(a, b) != 0 && Xor(a, b) < 0x2000000
  {
  }

  lemma XorMoves(a: bv32, b: bv32)
    ensures b != 0 ==> Xor(a, b) != a
  {
  }

  function Zeros(n: nat): (z: seq<bv32>)
    ensures |z| == n && forall i :: 0 <= i < n ==> z[i] == 0
  {
    if n == 0 then [] else [0] + Zeros(n - 1)
  }

  lemma OneDifferenceShows(before: nat, d: bv32, behind: nat)
    requires d != 0 && d < 0x2000000
    ensures Checksum(0, Zeros(before) + ([d] + Zeros(behind))) != 0
  {
    hide Absorb, Checksum, Push, Zeros;
    ChecksumAppend(0, Zeros(before), [d] + Zeros(behind));
    ZeroHead(Zeros(before));
    ChecksumStep(0, [d] + Zeros(behind));
    assert ([d] + Zeros(behind))[1..] == Zeros(behind);
    AbsorbSmall(0, d);
    FirstSymbol(d);
    ZeroTail(d, Zeros(behind));
  }

  lemma OneDifference(v: seq<bv32>, i: nat, x: bv32)
    requires i < |v|
    ensures var delta := Zeros(i) + ([Xor(v[i], x)] + Zeros(|v| - i - 1));
            |delta| == |v| && XorAll(v, delta) == v[i := x]
  {
    hide Xor, Zeros, XorAll;
    var delta := Zeros(i) + ([Xor(v[i], x)] + Zeros(|v| - i - 1));
    XorUndoes(v[i], x);
    forall j | 0 <= j < |v| ensures XorAll(v, delta)[j] == v[i := x][j] {
      XorUndoes(v[j], 0);
    }
  }

  /** Changing one symbol always changes the checksum. */
  lemma OneSymbolMatters(c: bv32, v: seq<bv32>, i: nat, x: bv32)
    requires i < |v| && v[i] < 32 && x < 32 && x != v[i]
    ensures Checksum(c, v[i := x]) != Checksum(c, v)
  {
    hide Xor, Checksum, Zeros, XorAll;
    var delta := Zeros(i) + ([Xor(v[i], x)] + Zeros(|v| - i - 1));
    XorApart(v[i], x);
    OneDifference(v, i, x);
    XorUndoes(c, 0);
    ChecksumIsLinear(c, 0, v, delta);
    OneDifferenceShows(i, Xor(v[i], x), |v| - i - 1);
    XorMoves(Checksum(c, v), Checksum(0, delta));
  }

  /* ---------- the loops of the wallet ---------- */

  function Word(i: nat): bv32 {
    if i == 0 then 0x3b6a57b2 else if i == 1 then 0x26508e6d else if i == 2 then 0x1ea119fa
    else if i == 3 then 0x3d4233dd
    else 0x2a1462b3
  }

  predicate BitAt(b: bv32, i: nat) {
    if i == 0 then Bit0(b) else if i == 1 then Bit1(b) else if i == 2 then Bit2(b) else if i == 3 then Bit3(b)
      else Bit4(b)
  }

  /** After the first `i` generator words. */
  function Mixed(c: bv32, b: bv32, i: nat): bv32 {
    if i == 0 then c else Xor(Mixed(c, b, i - 1), Pick(BitAt(b, i - 1), Word(i - 1)))
  }

  lemma XorAssociates(a: bv32, b: bv32, c: bv32)
    ensures Xor(Xor(a, b), c) == Xor(a, Xor(b, c))
  {
  }

  lemma MixedIsGenerator(c: bv32, b: bv32)
    ensures Mixed(c, b, 5) == Xor(c, Generator(b))
  {
    hide Xor, Pick, Bit0, Bit1, Bit2, Bit3, Bit4;
    var p0, p1, p2 := Pick(Bit0(b), 0x3b6a57b2), Pick(Bit1(b), 0x26508e6d), Pick(Bit2(b), 0x1ea119fa);
    var p3, p4 := Pick(Bit3(b), 0x3d4233dd), Pick(Bit4(b), 0x2a1462b3);
    assert Mixed(c, b, 1) == Xor(c, p0);
    assert Mixed(c, b, 2) == Xor(Xor(c, p0), p1);
    assert Mixed(c, b, 3) == Xor(Xor(Xor(c, p0), p1), p2);
    assert Mixed(c, b, 4) == Xor(Xor(Xor(Xor(c, p0), p1), p2), p3);
    XorAssociates(c, p0, p1);
    XorAssociates(Xor(c, Xor(p0, p1)), p2, p3);
    XorAssociates(Xor(c, Xor(p0, p1)), Xor(p2, p3), p4);
    XorAssociates(c, Xor(p0, p1), Xor(Xor(p2, p3), p4));
  }

  method PolymodLoop(values: seq<bv32>) returns (c: bv32)
    ensures c == Checksum(1, values)
  {
    hide Xor, Generator, Bit0, Bit1, Bit2, Bit3, Bit4;
    c := 1;
    for k := 0 to |values|
      invariant Checksum(c, values[k..]) == Checksum(1, values)
    {
      assert values[k..][1..] == values[k + 1..];
      var b := c >> 25;
      c := Xor((c & 0x1ffffff) << 5, values[k]);
      ghost var shifted := c;
      for i := 0 to 5
        invariant c == Mixed(shifted, b, i)
      {
        XorUndoes(c, 0);
        if BitAt(b, i) {
          c := Xor(c, Word(i));
        }
      }
      MixedIsGenerator(shifted, b);
    }
  }
}
