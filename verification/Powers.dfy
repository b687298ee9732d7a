/** The table-free facts the logarithm tables rest on, and the field laws they give. */
module Powers {
  import opened Bits
  import opened Field
  import opened Generator

  lemma {:induction false} PeriodRepeats(d: nat, q: nat, r: nat)
    requires Iter(d, 1) == 1
    ensures Iter(q * d + r, 1) == Iter(r, 1)
  {
    hide Iter;
    if q != 0 {
      PeriodRepeats(d, q - 1, r);
      assert q * d + r == (q - 1) * d + r + d;
      IterComposes((q - 1) * d + r, d, 1);
    }
  }

  lemma PeriodRemainder(d: nat, n: nat)
    requires d > 0 && Iter(d, 1) == 1
    ensures Iter(n % d, 1) == Iter(n, 1)
  {
    hide Iter;
    PeriodRepeats(d, n / d, n % d);
    assert n / d * d + n % d == n;
  }

  lemma ProductBound(d: nat, q: nat)
    requires d >= 16
    ensures d * q >= 16 * q
  {
  }

  lemma DivisorsOf255(d: nat)
    requires 0 < d < 255 && 255 % d == 0
    ensures 15 % d == 0 || 51 % d == 0 || 85 % d == 0
  {
    var q := 255 / d;
    assert d * q == 255;
    if d <= 15 {
      assert d == 1 || d == 3 || d == 5 || d == 15;
    } else {
      ProductBound(d, q);
      assert q == 3 || q == 5 || q == 15;
    }
  }

  lemma {:induction false} NoShortPeriod(d: nat)
    requires 0 < d < 255
    ensures Iter(d, 1) != 1
  {
    hide Iter;
    IterStep(0, 1);
    if Iter(d, 1) == 1 {
      OrderOfTwo();
      PeriodRemainder(d, 255);
      if 255 % d != 0 {
        NoShortPeriod(255 % d);
      } else {
        DivisorsOf255(d);
        PeriodRemainder(d, 15); PeriodRemainder(d, 51); PeriodRemainder(d, 85);
      }
    }
  }

  lemma PowersDistinct(i: nat, j: nat)
    requires i < j < 255
    ensures Iter(i, 1) != Iter(j, 1)
  {
    hide Iter;
    if Iter(i, 1) == Iter(j, 1) {
      IterComposes(i, j - i, 1);
      IterInjective(i, 1, Iter(j - i, 1));
      NoShortPeriod(j - i);
    }
  }

  lemma {:induction false} PowersNonZero(k: nat)
    ensures Iter(k, 1) != 0
  {
    IterZero(k);
    if Iter(k, 1) == 0 { IterInjective(k, 1, 0); }
  }

  ghost function Powers(n: nat): set<nat>
  {
    if n == 0 then {} else Powers(n - 1) + {Iter(n - 1, 1) as nat}
  }

  ghost function Upto(n: nat): set<nat>
  {
    if n == 0 then {} else Upto(n - 1) + {n}
  }

  lemma {:induction false} InPowers(n: nat, x: nat)
    ensures x in Powers(n) <==> exists k: nat :: k < n && Iter(k, 1) == x
  {
    if n != 0 {
      InPowers(n - 1, x);
      if x in Powers(n - 1) {
        var k: nat :| k < n - 1 && Iter(k, 1) == x;
        assert k < n && Iter(k, 1) == x;
      } else if x == Iter(n - 1, 1) {
        assert n - 1 < n && Iter(n - 1, 1) == x;
      }
    }
  }

  lemma {:induction false} InUpto(n: nat, x: nat)
    ensures x in Upto(n) <==> 1 <= x <= n
  {
    if n != 0 { InUpto(n - 1, x); }
  }

  lemma {:induction false} CountPowers(n: nat)
    requires n <= 255
    ensures |Powers(n)| == n && |Upto(n)| == n
  {
    if n != 0 {
      CountPowers(n - 1);
      InPowers(n - 1, Iter(n - 1, 1));
      forall k: nat | k < n - 1 ensures Iter(k, 1) != Iter(n - 1, 1) { PowersDistinct(k, n - 1); }
      InUpto(n - 1, n);
    }
  }

  lemma {:induction false} SubsetOfSameSize(s: set<nat>, t: set<nat>)
    requires s <= t && |s| == |t|
    ensures s == t
  {
    if s != {} {
      var x :| x in s;
      SubsetOfSameSize(s - {x}, t - {x});
    }
  }

  /** Every non-zero byte is a power of 2, by counting. */
  lemma EveryByteIsAPower(x: Byte)
    requires x != 0
    ensures exists k: nat :: k < 255 && Iter(k, 1) == x
  {
    CountPowers(255);
    forall y | y in Powers(255) ensures y in Upto(255) {
      InPowers(255, y);
      InUpto(255, y);
      var k: nat :| k < 255 && Iter(k, 1) == y;
      PowersNonZero(k);
    }
    SubsetOfSameSize(Powers(255), Upto(255));
    InUpto(255, x);
    InPowers(255, x);
  }

  /** A discrete logarithm. */
  ghost function Log(x: Byte): (k: nat)
    requires x != 0
    ensures k < 255 && Iter(k, 1) == x
  {
    EveryByteIsAPower(x);
    var k: nat :| k < 255 && Iter(k, 1) == x;
    k
  }

  // ----- the field laws -----

  lemma TimesOfPowers(i: nat, j: nat)
    ensures Times(Iter(i, 1), Iter(j, 1)) == Iter(i + j, 1)
    ensures Iter((i + j) % 255, 1) == Iter(i + j, 1)
  {
    hide Iter, Times;
    TimesIterLeft(i, 1, Iter(j, 1));
    TimesOneLeft(Iter(j, 1));
    IterComposes(i, j, 1);
    OrderOfTwo();
    PeriodRemainder(255, i + j);
  }

  /** Subtracting logarithms modulo 255 divides. */
  lemma QuotientOfPowers(i: nat, j: nat)
    requires i < 255 && j < 255
    ensures Times(Iter((i - j + 255) % 255, 1), Iter(j, 1)) == Iter(i, 1)
  {
    hide Iter, Times;
    OrderOfTwo();
    var k := i + 255 - j;
    PeriodRemainder(255, k);
    TimesOfPowers(k, j);
    IterComposes(i, 255, 1);
  }

  lemma {:induction false} TimesZeroLeft(b: nat)
    ensures Times(0, b) == 0
  {
    if b != 0 {
      TimesZeroLeft(b / 2);
      XorZero(0);
    }
  }

  lemma TimesZero(a: Byte)
    ensures Times(a, 0) == 0 && Times(0, a) == 0
  {
    TimesZeroLeft(a);
  }

  lemma TimesCommutes(a: Byte, b: Byte)
    ensures Times(a, b) == Times(b, a)
  {
    TimesZero(a); TimesZero(b);
    if a != 0 && b != 0 {
      TimesOfPowers(Log(a), Log(b));
      TimesOfPowers(Log(b), Log(a));
    }
  }

  lemma PowersAssociate(i: nat, j: nat, k: nat)
    ensures Times(Times(Iter(i, 1), Iter(j, 1)), Iter(k, 1)) == Times(Iter(i, 1), Times(Iter(j, 1), Iter(k, 1)))
  {
    hide Iter, Times;
    TimesOfPowers(i, j);
    TimesOfPowers(j, k);
    TimesOfPowers(i + j, k);
    TimesOfPowers(i, j + k);
  }

  lemma TimesAssociates(a: Byte, b: Byte, c: Byte)
    ensures Times(Times(a, b), c) == Times(a, Times(b, c))
  {
    TimesZero(a); TimesZero(b); TimesZero(c);
    TimesZero(Times(a, b)); TimesZero(Times(b, c));
    if a != 0 && b != 0 && c != 0 {
      PowersAssociate(Log(a), Log(b), Log(c));
    }
  }

  lemma TimesOne(a: Byte)
    ensures Times(a, 1) == a && Times(1, a) == a
  {
    TimesOneLeft(a);
    TimesCommutes(a, 1);
  }

  lemma Distributes(a: Byte, b: Byte, c: Byte)
    ensures Times(a, Add(b, c)) == Add(Times(a, b), Times(a, c))
    ensures Times(Add(b, c), a) == Add(Times(b, a), Times(c, a))
  {
    TimesAdds(a, b, c);
    TimesCommutes(a, Add(b, c)); TimesCommutes(a, b); TimesCommutes(a, c);
  }

  lemma NoZeroDivisors(a: Byte, b: Byte)
    ensures Times(a, b) == 0 <==> a == 0 || b == 0
  {
    TimesZero(a); TimesZero(b);
    if a != 0 && b != 0 {
      TimesOfPowers(Log(a), Log(b));
      PowersNonZero(Log(a) + Log(b));
    }
  }

  /** Division has one answer. */
  lemma TimesCancels(a: Byte, b: Byte, c: Byte)
    requires c != 0 && Times(a, c) == Times(b, c)
    ensures a == b
  {
    Distributes(c, a, b);
    XorSelf(Times(a, c));
    NoZeroDivisors(Add(a, b), c);
    XorIsZero(a, b);
  }
}
