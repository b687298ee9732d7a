/** Numbers in a fixed base, most significant digit first. */
module Positional {

  function Power(base: nat, n: nat): nat
  {
    if n == 0 then 1 else base * Power(base, n - 1)
  }

  function Value(base: nat, ds: seq<nat>): nat
  {
    if ds == [] then 0 else Value(base, ds[..|ds| - 1]) * base + ds[|ds| - 1]
  }

  /** The `n` least significant digits. */
  function Digits(base: nat, n: nat, v: nat): (ds: seq<nat>)
    requires base > 0
    ensures |ds| == n && forall i :: 0 <= i < n ==> ds[i] < base
  {
    if n == 0 then [] else Digits(base, n - 1, v / base) + [v % base]
  }

  function Drop(base: nat, n: nat, v: nat): nat
    requires base > 0
  {
    if n == 0 then v else Drop(base, n - 1, v / base)
  }

  lemma {:induction false} DropStep(base: nat, n: nat, v: nat)
    requires base > 0
    ensures Drop(base, n + 1, v) == Drop(base, n, v) / base
  {
    if n != 0 { DropStep(base, n - 1, v / base); }
  }

  lemma {:induction false} DigitsFront(base: nat, n: nat, v: nat)
    requires base > 0
    ensures Digits(base, n + 1, v) == [Drop(base, n, v) % base] + Digits(base, n, v)
  {
    if n != 0 {
      DigitsFront(base, n - 1, v / base);
    }
  }

  lemma QuotientBound(v: nat, base: nat, p: nat)
    requires base > 0
    ensures v < base * p ==> v / base < p
    ensures v / base * base + v % base == v
  {
    if v / base >= p {
      ProductGrows(v / base, p, base);
    }
  }

  lemma ProductGrows(a: nat, b: nat, c: nat)
    requires a >= b
    ensures a * c >= b * c && b * c == c * b
  {
  }

  lemma {:induction false} ValueOfDigits(base: nat, n: nat, v: nat)
    requires base > 0 && v < Power(base, n)
    ensures Value(base, Digits(base, n, v)) == v
  {
    if n != 0 {
      QuotientBound(v, base, Power(base, n - 1));
      ValueOfDigits(base, n - 1, v / base);
      assert Digits(base, n, v)[..n - 1] == Digits(base, n - 1, v / base);
    }
  }

  lemma SameQuotient(q: nat, d: nat, r: nat, e: nat, base: nat)
    requires d < base && e < base && q * base + d == r * base + e
    ensures q == r && d == e
  {
    if q < r {
      ProductGrows(r, q + 1, base);
      OneMore(q, base);
    } else if r < q {
      ProductGrows(q, r + 1, base);
      OneMore(r, base);
    }
  }

  lemma OneMore(q: nat, base: nat)
    ensures (q + 1) * base == q * base + base
  {
  }

  lemma QuotientOf(q: nat, d: nat, base: nat)
    requires d < base
    ensures (q * base + d) / base == q && (q * base + d) % base == d
  {
    var x := q * base + d;
    QuotientBound(x, base, 0);
    SameQuotient(q, d, x / base, x % base, base);
  }

  lemma DigitBelow(v: nat, d: nat, base: nat, p: nat)
    requires v < p && d < base
    ensures v * base + d < base * p
  {
    ProductGrows(p, v + 1, base);
    OneMore(v, base);
  }

  lemma {:induction false} ValueBound(base: nat, ds: seq<nat>)
    requires base > 0 && forall i :: 0 <= i < |ds| ==> ds[i] < base
    ensures Value(base, ds) < Power(base, |ds|)
  {
    if ds != [] {
      ValueBound(base, ds[..|ds| - 1]);
      DigitBelow(Value(base, ds[..|ds| - 1]), ds[|ds| - 1], base, Power(base, |ds| - 1));
    }
  }

  lemma {:induction false} DigitsOfValue(base: nat, ds: seq<nat>)
    requires base > 0 && forall i :: 0 <= i < |ds| ==> ds[i] < base
    ensures Digits(base, |ds|, Value(base, ds)) == ds
    ensures Value(base, ds) < Power(base, |ds|)
  {
    ValueBound(base, ds);
    hide Power;
    if ds != [] {
      var init, d := ds[..|ds| - 1], ds[|ds| - 1];
      DigitsOfValue(base, init);
      QuotientOf(Value(base, init), d, base);
      assert ds == init + [d];
    }
  }
}
