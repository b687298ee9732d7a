/** Polynomials over the field: roots, uniqueness and the Lagrange form at 0. */
module Polynomials {
  import opened Bits
  import opened Field
  import opened Powers

  type Poly = seq<Byte>

  /** Coefficient `i` belongs to x to the `i`; Horner's nesting. */
  function Eval(p: Poly, x: Byte): Byte
  {
    if p == [] then 0 else Add(Times(Eval(p[1..], x), x), p[0])
  }

  function Power(x: Byte, k: nat): Byte
  {
    if k == 0 then 1 else Times(Power(x, k - 1), x)
  }

  /** The textbook value, a sum of coefficients times powers. */
  function PowerSum(p: Poly, x: Byte): Byte
  {
    if p == [] then 0
    else Add(PowerSum(p[..|p| - 1], x), Times(p[|p| - 1], Power(x, |p| - 1)))
  }

  lemma AddLaws(a: Byte, b: Byte, c: Byte)
    ensures Add(a, b) == Add(b, a)
    ensures Add(Add(a, b), c) == Add(a, Add(b, c))
    ensures Add(a, 0) == a && Add(0, a) == a && Add(a, a) == 0
  {
    XorCommutes(a, b);
    XorAssociates(a, b, c);
    XorZero(a);
    XorSelf(a);
  }

  lemma AddSwap(a: Byte, b: Byte, c: Byte, d: Byte)
    ensures Add(Add(a, b), Add(c, d)) == Add(Add(a, c), Add(b, d))
  {
    XorSwap(a, b, c, d);
  }

  lemma {:induction false} EvalAppend(p: Poly, c: Byte, x: Byte)
    ensures Eval(p + [c], x) == Add(Eval(p, x), Times(c, Power(x, |p|)))
  {
    hide Times, Xor, Add;
    if p == [] {
      assert (p + [c])[1..] == [];
      TimesZero(x); AddLaws(c, 0, 0); TimesOne(c);
    } else {
      var q := p[1..];
      assert (p + [c])[1..] == q + [c];
      EvalAppend(q, c, x);
      var top := Times(c, Power(x, |q|));
      Distributes(x, Eval(q, x), top);
      TimesAssociates(c, Power(x, |q|), x);
      var a, b := Times(Eval(q, x), x), Times(top, x);
      AddLaws(a, b, p[0]);
      AddLaws(b, p[0], 0);
      AddLaws(a, p[0], b);
    }
  }

  lemma {:induction false} EvalIsPowerSum(p: Poly, x: Byte)
    ensures Eval(p, x) == PowerSum(p, x)
  {
    hide Times, Xor, Add;
    if p != [] {
      var q := p[..|p| - 1];
      EvalIsPowerSum(q, x);
      EvalAppend(q, p[|p| - 1], x);
      assert q + [p[|p| - 1]] == p;
    }
  }

  lemma EvalAtZero(p: Poly)
    requires p != []
    ensures Eval(p, 0) == p[0]
  {
    hide Times, Xor, Add;
    TimesZero(Eval(p[1..], 0));
    AddLaws(p[0], 0, 0);
  }

  // ----- dividing out a root -----

  /** Synthetic division by (x - r). */
  function Quotient(p: Poly, r: Byte): (q: Poly)
    requires p != []
    ensures |q| == |p| - 1
  {
    if |p| == 1 then [] else [Eval(p[1..], r)] + Quotient(p[1..], r)
  }

  lemma {:induction false} DivisionStep(x: Byte, r: Byte, d: Byte, v: Byte, c: Byte)
    ensures Add(Times(Add(Times(Add(x, r), d), v), x), c)
         == Add(Times(Add(x, r), Add(Times(d, x), v)), Add(Times(v, r), c))
  {
    hide Times, Xor, Add;
    var s := Add(x, r);
    Distributes(x, Times(s, d), v);
    TimesAssociates(s, d, x);
    Distributes(s, Times(d, x), v);
    Distributes(v, x, r);
    TimesCommutes(s, v); TimesCommutes(v, x);
    // s*v + v*r is v*x
    var sd, vx, vr := Times(s, Times(d, x)), Times(v, x), Times(v, r);
    AddLaws(sd, Add(vx, vr), Add(vr, c));
    AddLaws(vx, vr, Add(vr, c));
    AddLaws(vr, vr, c);
    AddLaws(vr, 0, 0); AddLaws(c, 0, 0);
    AddLaws(sd, vx, c);
  }

  lemma {:induction false} DivisionEval(p: Poly, r: Byte, x: Byte)
    requires p != []
    ensures Eval(p, x) == Add(Times(Add(x, r), Eval(Quotient(p, r), x)), Eval(p, r))
  {
    hide Times, Xor, Add;
    var q := p[1..];
    if q == [] {
      TimesZero(x); TimesZero(r); TimesZero(Add(x, r));
      AddLaws(p[0], 0, 0);
    } else {
      DivisionEval(q, r, x);
      DivisionStep(x, r, Eval(Quotient(q, r), x), Eval(q, r), p[0]);
      assert Quotient(p, r)[1..] == Quotient(q, r);
    }
  }

  ghost predicate AllZero(p: Poly)
  {
    forall i :: 0 <= i < |p| ==> p[i] == 0
  }

  lemma {:induction false} ZeroQuotient(p: Poly, r: Byte)
    requires p != [] && AllZero(Quotient(p, r)) && Eval(p, r) == 0
    ensures AllZero(p)
  {
    hide Times, Xor, Add;
    var q := p[1..];
    TimesZero(r);
    AddLaws(p[0], 0, 0);
    if q != [] {
      var d := Quotient(p, r);
      assert d[0] == 0 && d[1..] == Quotient(q, r);
      forall i | 0 <= i < |d[1..]| ensures d[1..][i] == 0 { assert d[1..][i] == d[i + 1]; }
      ZeroQuotient(q, r);
      forall i | 0 <= i < |p| ensures p[i] == 0 { if i > 0 { assert p[i] == q[i - 1]; } }
    }
  }

  ghost predicate Distinct(xs: seq<Byte>)
  {
    forall i, j :: 0 <= i < j < |xs| ==> xs[i] != xs[j]
  }

  /** A polynomial with as many roots as coefficients has no other coefficients than 0. */
  lemma {:induction false} TooManyRoots(p: Poly, xs: seq<Byte>)
    requires Distinct(xs) && |xs| >= |p|
    requires forall i :: 0 <= i < |xs| ==> Eval(p, xs[i]) == 0
    ensures AllZero(p)
    decreases |p|
  {
    hide Times, Xor, Add, Eval, Quotient;
    if p != [] {
      var r, rest := xs[0], xs[1..];
      var q := Quotient(p, r);
      forall i | 0 <= i < |rest| ensures Eval(q, rest[i]) == 0 {
        assert rest[i] == xs[i + 1];
        var x := rest[i];
        DivisionEval(p, r, x);
        AddLaws(Times(Add(x, r), Eval(q, x)), 0, 0);
        NoZeroDivisors(Add(x, r), Eval(q, x));
        AddIsZero(x, r);
      }
      TooManyRoots(q, rest);
      ZeroQuotient(p, r);
    }
  }

  lemma AddIsZero(a: Byte, b: Byte)
    ensures Add(a, b) == 0 <==> a == b
  {
    XorIsZero(a, b);
  }

  // ----- sums and multiples -----

  function Sum(p: Poly, q: Poly): (r: Poly)
    requires |p| == |q|
    ensures |r| == |p|
  {
    if p == [] then [] else [Add(p[0], q[0])] + Sum(p[1..], q[1..])
  }

  function Scale(c: Byte, p: Poly): (r: Poly)
    ensures |r| == |p|
  {
    if p == [] then [] else [Times(c, p[0])] + Scale(c, p[1..])
  }

  lemma {:induction false} EvalSum(p: Poly, q: Poly, x: Byte)
    requires |p| == |q|
    ensures Eval(Sum(p, q), x) == Add(Eval(p, x), Eval(q, x))
  {
    hide Times, Xor, Add;
    if p == [] {
      AddLaws(0, 0, 0);
    } else {
      EvalSum(p[1..], q[1..], x);
      assert Sum(p, q)[1..] == Sum(p[1..], q[1..]);
      Distributes(x, Eval(p[1..], x), Eval(q[1..], x));
      AddSwap(Times(Eval(p[1..], x), x), Times(Eval(q[1..], x), x), p[0], q[0]);
    }
  }

  lemma {:induction false} EvalScale(c: Byte, p: Poly, x: Byte)
    ensures Eval(Scale(c, p), x) == Times(c, Eval(p, x))
  {
    hide Times, Xor, Add;
    if p == [] {
      TimesZero(c);
    } else {
      EvalScale(c, p[1..], x);
      assert Scale(c, p)[1..] == Scale(c, p[1..]);
      TimesAssociates(c, Eval(p[1..], x), x);
      Distributes(c, Times(Eval(p[1..], x), x), p[0]);
    }
  }

  lemma {:induction false} SumIsZero(p: Poly, q: Poly)
    requires |p| == |q| && AllZero(Sum(p, q))
    ensures p == q
  {
    hide Times, Xor, Add;
    if p != [] {
      var s := Sum(p, q);
      assert s[0] == Add(p[0], q[0]);
      AddIsZero(p[0], q[0]);
      assert s[1..] == Sum(p[1..], q[1..]);
      forall i | 0 <= i < |s[1..]| ensures s[1..][i] == 0 { assert s[1..][i] == s[i + 1]; }
      SumIsZero(p[1..], q[1..]);
      assert p == [p[0]] + p[1..] && q == [q[0]] + q[1..];
    }
  }

  /** Two polynomials that agree on enough points are the same. */
  lemma {:induction false} AgreeingPolys(p: Poly, q: Poly, xs: seq<Byte>)
    requires |p| == |q| <= |xs| && Distinct(xs)
    requires forall i :: 0 <= i < |xs| ==> Eval(p, xs[i]) == Eval(q, xs[i])
    ensures p == q
  {
    hide Times, Xor, Add, Eval, Sum;
    forall i | 0 <= i < |xs| ensures Eval(Sum(p, q), xs[i]) == 0 {
      EvalSum(p, q, xs[i]);
      AddLaws(Eval(p, xs[i]), 0, 0);
    }
    TooManyRoots(Sum(p, q), xs);
    SumIsZero(p, q);
  }

  function Zeros(n: nat): (z: Poly)
    ensures |z| == n
  {
    seq(n, _ => 0)
  }

  lemma {:induction false} EvalPadded(p: Poly, n: nat, x: Byte)
    ensures Eval(p + Zeros(n), x) == Eval(p, x)
  {
    hide Times, Xor, Add;
    if n == 0 {
      assert p + Zeros(0) == p;
    } else {
      EvalPadded(p, n - 1, x);
      assert p + Zeros(n) == (p + Zeros(n - 1)) + [0];
      EvalAppend(p + Zeros(n - 1), 0, x);
      TimesZero(Power(x, |p| + n - 1));
      AddLaws(Eval(p, x), 0, 0);
    }
  }
}
