/** Products, quotients and powers of two, named so that a proof can use their laws only. */
module Arithmetic {

  function Mul(a: nat, b: nat): nat {
    a * b
  }

  function Div(n: nat, d: nat): nat
    requires d > 0
  {
    n / d
  }

  function Mod(n: nat, d: nat): (r: nat)
    requires d > 0
    ensures r < d
  {
    n % d
  }

  lemma DivMod(n: nat, d: nat)
    requires d > 0
    ensures n == Mul(Div(n, d), d) + Mod(n, d)
  {
  }

  lemma MulOrdered(a: nat, b: nat, c: nat)
    ensures a <= b ==> Mul(a, c) <= Mul(b, c)
    ensures Mul(a + b, c) == Mul(a, c) + Mul(b, c) && Mul(1, c) == c && Mul(0, c) == 0
    ensures Mul(Mul(a, b), c) == Mul(a, Mul(b, c)) && Mul(a, b) == Mul(b, a)
  {
    assert a * b * c == a * (b * c);
    assert (a + b) * c == a * c + b * c;
  }

  lemma DivideBack(q: nat, r: nat, d: nat)
    requires r < d
    ensures Div(Mul(q, d) + r, d) == q && Mod(Mul(q, d) + r, d) == r
  {
    var n := Mul(q, d) + r;
    var q' := Div(n, d);
    DivMod(n, d);
    hide Div, Mod, Mul;
    MulOrdered(q' + 1, q, d);
    MulOrdered(q + 1, q', d);
    MulOrdered(q', 1, d);
    MulOrdered(q, 1, d);
    assert q' == q;
  }

  function Pow2(n: nat): (p: nat)
    ensures p > 0
  {
    if n == 0 then 1 else Mul(2, Pow2(n - 1))
  }

  lemma {:induction false} PowAdds(a: nat, b: nat)
    ensures Pow2(a + b) == Mul(Pow2(a), Pow2(b))
  {
    hide Mul;
    if a > 0 {
      PowAdds(a - 1, b);
      MulOrdered(2, Pow2(a - 1), Pow2(b));
    } else {
      MulOrdered(1, 0, Pow2(b));
    }
  }

  /** The low bits of a word, split once more. */
  lemma SplitPower(n: nat, a: nat, b: nat)
    ensures Mod(n, Pow2(a + b)) == Mul(Mod(Div(n, Pow2(a)), Pow2(b)), Pow2(a)) + Mod(n, Pow2(a))
  {
    hide Mul, Div, Mod, Pow2;
    var q := Div(n, Pow2(a));
    var top, mid, low := Div(q, Pow2(b)), Mod(q, Pow2(b)), Mod(n, Pow2(a));
    PowAdds(b, a);
    DivMod(n, Pow2(a));
    DivMod(q, Pow2(b));
    MulOrdered(Mul(top, Pow2(b)), mid, Pow2(a));
    MulOrdered(top, Pow2(b), Pow2(a));
    MulOrdered(mid + 1, Pow2(b), Pow2(a));
    MulOrdered(mid, 1, Pow2(a));
    DivideBack(top, Mul(mid, Pow2(a)) + low, Pow2(b + a));
  }
}
