/** The Lagrange sum at 0, the polynomial behind it, and what a set of points determines. */
module Interpolation {
  import opened Bits
  import opened Field
  import opened Powers
  import opened Polynomials

  /** The quotient of the field; `TimesCancels` makes it the only one. */
  ghost function Div(a: Byte, b: Byte): (q: Byte)
    requires b != 0
    ensures Times(q, b) == a
  {
    DivExists(a, b);
    var q: Byte :| Times(q, b) == a;
    q
  }

  lemma DivExists(a: Byte, b: Byte)
    requires b != 0
    ensures exists q: Byte :: Times(q, b) == a
  {
    if a == 0 {
      TimesZero(b);
      assert Times(0, b) == a;
    } else {
      var i, j := Log(a), Log(b);
      TimesOfPowers(i + 255 - j, j);
      PeriodicPower(i);
      assert Times(Iter(i + 255 - j, 1), b) == a;
    }
  }

  lemma PeriodicPower(i: nat)
    ensures Iter(i + 255, 1) == Iter(i, 1)
  {
    hide Iter;
    IterComposes(i, 255, 1);
    Generator.OrderOfTwo();
  }

  /** The product of (x - x_j), built in the order of the loop. */
  function Product(xs: seq<Byte>, x: Byte): Byte
  {
    if xs == [] then 1 else Times(Product(xs[..|xs| - 1], x), Add(x, xs[|xs| - 1]))
  }

  function Others<T>(xs: seq<T>, i: nat): seq<T>
    requires i < |xs|
  {
    xs[..i] + xs[i + 1..]
  }

  lemma {:induction false} ProductIsZero(xs: seq<Byte>, x: Byte)
    ensures Product(xs, x) == 0 <==> x in xs
  {
    hide Times, Xor, Add;
    if xs != [] {
      var init, last := xs[..|xs| - 1], xs[|xs| - 1];
      ProductIsZero(init, x);
      NoZeroDivisors(Product(init, x), Add(x, last));
      AddIsZero(x, last);
      assert xs == init + [last];
    }
  }

  lemma OthersDiffer(xs: seq<Byte>, i: nat)
    requires Distinct(xs) && i < |xs|
    ensures xs[i] !in Others(xs, i)
    ensures forall j :: 0 <= j < |xs| && j != i ==> xs[j] in Others(xs, i)
  {
    forall j | 0 <= j < |xs| && j != i ensures xs[j] in Others(xs, i) {
      if j < i { assert Others(xs, i)[j] == xs[j]; } else { assert Others(xs, i)[j - 1] == xs[j]; }
    }
  }

  ghost function Term(xs: seq<Byte>, ys: seq<Byte>, i: nat): Byte
    requires Distinct(xs) && |xs| == |ys| && i < |xs|
  {
    OthersDiffer(xs, i);
    ProductIsZero(Others(xs, i), xs[i]);
    Times(ys[i], Div(Product(Others(xs, i), 0), Product(Others(xs, i), xs[i])))
  }

  /** The first `k` terms of the Lagrange sum at 0. */
  ghost function Lagrange(xs: seq<Byte>, ys: seq<Byte>, k: nat): Byte
    requires Distinct(xs) && |xs| == |ys| && k <= |xs|
  {
    if k == 0 then 0 else Add(Lagrange(xs, ys, k - 1), Term(xs, ys, k - 1))
  }

  // ----- the polynomial through the points -----

  function TimesLinear(p: Poly, r: Byte): (q: Poly)
    ensures |q| == |p| + 1
  {
    Sum([0] + p, Scale(r, p) + [0])
  }

  function Basis(xs: seq<Byte>): (p: Poly)
    ensures |p| == |xs| + 1
  {
    if xs == [] then [1] else TimesLinear(Basis(xs[..|xs| - 1]), xs[|xs| - 1])
  }

  lemma TimesLinearEval(p: Poly, r: Byte, x: Byte)
    ensures Eval(TimesLinear(p, r), x) == Times(Eval(p, x), Add(x, r))
  {
    hide Times, Xor, Add;
    EvalSum([0] + p, Scale(r, p) + [0], x);
    assert ([0] + p)[1..] == p;
    AddLaws(Times(Eval(p, x), x), 0, 0);
    EvalAppend(Scale(r, p), 0, x);
    TimesZero(Power(x, |p|));
    EvalScale(r, p, x);
    AddLaws(Times(r, Eval(p, x)), 0, 0);
    TimesCommutes(r, Eval(p, x));
    Distributes(Eval(p, x), x, r);
  }

  lemma {:induction false} BasisEval(xs: seq<Byte>, x: Byte)
    ensures Eval(Basis(xs), x) == Product(xs, x)
  {
    hide Times, Xor, Add;
    if xs == [] {
      TimesZero(x);
      AddLaws(1, 0, 0);
    } else {
      BasisEval(xs[..|xs| - 1], x);
      TimesLinearEval(Basis(xs[..|xs| - 1]), xs[|xs| - 1], x);
    }
  }

  ghost function Weight(xs: seq<Byte>, ys: seq<Byte>, i: nat): Byte
    requires Distinct(xs) && |xs| == |ys| && i < |xs|
  {
    OthersDiffer(xs, i);
    ProductIsZero(Others(xs, i), xs[i]);
    Div(ys[i], Product(Others(xs, i), xs[i]))
  }

  ghost function Through(xs: seq<Byte>, ys: seq<Byte>, k: nat): (p: Poly)
    requires Distinct(xs) && |xs| == |ys| && k <= |xs|
    ensures |p| == |xs|
  {
    if k == 0 then Zeros(|xs|)
    else Sum(Through(xs, ys, k - 1), Scale(Weight(xs, ys, k - 1), Basis(Others(xs, k - 1))))
  }

  lemma {:induction false} ThroughStep(xs: seq<Byte>, ys: seq<Byte>, k: nat, x: Byte)
    requires Distinct(xs) && |xs| == |ys| && 0 < k <= |xs|
    ensures Eval(Through(xs, ys, k), x)
         == Add(Eval(Through(xs, ys, k - 1), x), Times(Weight(xs, ys, k - 1), Product(Others(xs, k - 1), x)))
  {
    hide Times, Xor, Add, Eval, Product, Weight, Basis;
    EvalSum(Through(xs, ys, k - 1), Scale(Weight(xs, ys, k - 1), Basis(Others(xs, k - 1))), x);
    EvalScale(Weight(xs, ys, k - 1), Basis(Others(xs, k - 1)), x);
    BasisEval(Others(xs, k - 1), x);
  }

  lemma ThroughNothing(xs: seq<Byte>, ys: seq<Byte>, x: Byte)
    requires Distinct(xs) && |xs| == |ys|
    ensures Eval(Through(xs, ys, 0), x) == 0
  {
    EvalPadded([], |xs|, x);
    assert [] + Zeros(|xs|) == Zeros(|xs|);
  }

  lemma {:induction false} ThroughPoint(xs: seq<Byte>, ys: seq<Byte>, k: nat, j: nat)
    requires Distinct(xs) && |xs| == |ys| && k <= |xs| && j < |xs|
    ensures Eval(Through(xs, ys, k), xs[j]) == if j < k then ys[j] else 0
  {
    hide Times, Xor, Add, Eval, Product, Through;
    if k == 0 {
      ThroughNothing(xs, ys, xs[j]);
    } else {
      ThroughPoint(xs, ys, k - 1, j);
      ThroughStep(xs, ys, k, xs[j]);
      OthersDiffer(xs, k - 1);
      ProductIsZero(Others(xs, k - 1), xs[j]);
      TimesZero(Weight(xs, ys, k - 1));
      AddLaws(Eval(Through(xs, ys, k - 1), xs[j]), 0, 0);
      AddLaws(ys[j], 0, 0);
    }
  }

  /** y * (n / d) is (y / d) * n. */
  lemma DivMoves(y: Byte, n: Byte, d: Byte)
    requires d != 0
    ensures Times(y, Div(n, d)) == Times(Div(y, d), n)
  {
    hide Times;
    var a, b := Div(n, d), Div(y, d);
    TimesAssociates(y, a, d);
    TimesAssociates(b, n, d);
    TimesCommutes(n, d);
    TimesAssociates(b, d, n);
    TimesCancels(Times(y, a), Times(b, n), d);
  }

  lemma {:induction false} ThroughZero(xs: seq<Byte>, ys: seq<Byte>, k: nat)
    requires Distinct(xs) && |xs| == |ys| && k <= |xs|
    ensures Eval(Through(xs, ys, k), 0) == Lagrange(xs, ys, k)
  {
    hide Times, Xor, Add, Eval, Product, Through;
    if k == 0 {
      ThroughNothing(xs, ys, 0);
    } else {
      ThroughZero(xs, ys, k - 1);
      ThroughStep(xs, ys, k, 0);
      OthersDiffer(xs, k - 1);
      ProductIsZero(Others(xs, k - 1), xs[k - 1]);
      DivMoves(ys[k - 1], Product(Others(xs, k - 1), 0), Product(Others(xs, k - 1), xs[k - 1]));
    }
  }

  // ----- what the points determine -----

  ghost predicate Fits(p: Poly, xs: seq<Byte>, ys: seq<Byte>)
    requires |xs| == |ys|
  {
    forall i :: 0 <= i < |xs| ==> Eval(p, xs[i]) == ys[i]
  }

  /** Enough points of a polynomial: the Lagrange sum is its constant coefficient. */
  lemma LagrangeRecovers(p: Poly, xs: seq<Byte>, ys: seq<Byte>)
    requires 0 < |p| <= |xs| == |ys| && Distinct(xs) && Fits(p, xs, ys)
    ensures Lagrange(xs, ys, |xs|) == p[0]
  {
    hide Times, Xor, Add, Eval, Product, Through, Lagrange;
    var q := p + Zeros(|xs| - |p|);
    var l := Through(xs, ys, |xs|);
    forall i | 0 <= i < |xs| ensures Eval(q, xs[i]) == Eval(l, xs[i]) {
      EvalPadded(p, |xs| - |p|, xs[i]);
      ThroughPoint(xs, ys, |xs|, i);
    }
    AgreeingPolys(q, l, xs);
    ThroughZero(xs, ys, |xs|);
    EvalAtZero(q);
  }

  /**
   One point too few: whatever the shares and whatever the secret, exactly one choice of the
   remaining coefficients explains them.
   */
  lemma OnePointShort(secret: Byte, xs: seq<Byte>, ys: seq<Byte>)
    requires |xs| == |ys| && Distinct(xs) && 0 !in xs
    ensures exists c: Poly :: |c| == |xs| && Fits([secret] + c, xs, ys)
    ensures forall c: Poly, d: Poly ::
      |c| == |d| == |xs| && Fits([secret] + c, xs, ys) && Fits([secret] + d, xs, ys) ==> c == d
  {
    hide Times, Xor, Add, Eval, Product, Through;
    var xs0, ys0: seq<Byte> := [0] + xs, [secret] + ys;
    assert Distinct(xs0) by {
      forall i, j | 0 <= i < j < |xs0| ensures xs0[i] != xs0[j] {
        assert xs0[j] == xs[j - 1];
        if i > 0 { assert xs0[i] == xs[i - 1]; }
      }
    }
    var p := Through(xs0, ys0, |xs0|);
    ThroughPoint(xs0, ys0, |xs0|, 0);
    EvalAtZero(p);
    assert p == [secret] + p[1..];
    forall i | 0 <= i < |xs| ensures Eval(p, xs[i]) == ys[i] {
      ThroughPoint(xs0, ys0, |xs0|, i + 1);
      assert xs0[i + 1] == xs[i];
    }
    assert Fits([secret] + p[1..], xs, ys);
    forall c: Poly, d: Poly | |c| == |d| == |xs| && Fits([secret] + c, xs, ys) && Fits([secret] + d, xs, ys)
      ensures c == d
    {
      var a, b: Poly := [secret] + c, [secret] + d;
      EvalAtZero(a);
      EvalAtZero(b);
      forall i | 0 <= i < |xs0| ensures Eval(a, xs0[i]) == Eval(b, xs0[i]) {
        if i > 0 { assert xs0[i] == xs[i - 1]; }
      }
      AgreeingPolys(a, b, xs0);
      assert c == a[1..] && d == b[1..];
    }
  }
}
