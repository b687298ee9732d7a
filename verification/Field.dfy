/**
 The field the Shamir code works in: bytes as polynomials over GF(2), modulo
 x^8 + x^4 + x^3 + x^2 + 1 (0x11d).  `Times` is the reference product; nothing here knows about
 logarithm tables.
 */
module Field {
  import opened Bits

  const MODULUS: nat := 0x11d

  function Add(a: Byte, b: Byte): Byte
  {
    XorOfBytes(a, b);
    Xor(a, b)
  }

  /** One turn of the table loop: shift left, fold an overflow back with the modulus. */
  function Double(x: Byte): Byte
  {
    if 2 * x < 256 then 2 * x
    else
      assert Xor(2 * x, 0x11d) < 256 by { XorHigh(2 * x, 0x11d); XorSelf(1); }
      Xor(2 * x, 0x11d)
  }

  function Iter(k: nat, x: Byte): Byte
  {
    if k == 0 then x else Double(Iter(k - 1, x))
  }

  lemma IterStep(k: nat, x: Byte)
    ensures Iter(0, x) == x && Iter(1, x) == Double(x)
    ensures Iter(k + 1, x) == Double(Iter(k, x))
  {
    assert Iter(1, x) == Double(Iter(0, x));
  }

  /** Product of two polynomials over GF(2), without reduction. */
  function CarryLess(a: nat, b: nat): nat
  {
    if b == 0 then 0 else Xor(if b % 2 == 1 then a else 0, 2 * CarryLess(a, b / 2))
  }

  /** The product of two bytes with every step reduced. */
  function Times(a: Byte, b: nat): Byte
  {
    if b == 0 then 0 else Add(if b % 2 == 1 then a else 0, Double(Times(a, b / 2)))
  }

  // ----- Times is the remainder of the carry-less product -----

  ghost predicate Congruent(p: nat, r: nat)
  {
    exists q: nat :: p == Xor(CarryLess(MODULUS, q), r)
  }

  lemma {:induction false} CarryLessAdds(a: nat, b: nat, c: nat)
    ensures CarryLess(a, Xor(b, c)) == Xor(CarryLess(a, b), CarryLess(a, c))
    decreases b + c
  {
    if b == 0 {
      XorZero(c); XorZero(CarryLess(a, c));
    } else if c == 0 {
      XorZero(b); XorZero(CarryLess(a, b));
    } else {
      CarryLessAdds(a, b / 2, c / 2);
      XorHalf(b, c);
      var x, y := CarryLess(a, b / 2), CarryLess(a, c / 2);
      XorDouble(x, y);
      var p, q := if b % 2 == 1 then a else 0, if c % 2 == 1 then a else 0;
      XorSwap(p, 2 * x, q, 2 * y);
      XorZero(a); XorSelf(a); XorZero(0);
      assert Xor(p, q) == if Xor(b, c) % 2 == 1 then a else 0;
      XorZero(2 * Xor(x, y));
    }
  }

  lemma CarryLessTwice(a: nat, q: nat)
    ensures CarryLess(a, 2 * q) == 2 * CarryLess(a, q)
  {
    XorZero(2 * CarryLess(a, q));
  }

  /** The modulus if doubling `t` overflows. */
  function Folded(t: Byte): nat
  {
    CarryLess(MODULUS, if 2 * t < 256 then 0 else 1)
  }

  /** Doubling without reduction is doubling with it, but for the modulus. */
  lemma TwiceIsDouble(t: Byte)
    ensures var twice: nat := t; 2 * twice == Xor(Folded(t), Double(t))
  {
    var twice: nat := t;
    XorZero(MODULUS);
    XorZero(2 * twice);
    XorCancel(2 * twice, MODULUS);
    XorCommutes(MODULUS, Double(t));
    assert Folded(t) == if 2 * twice < 256 then 0 else MODULUS;
    hide Xor, CarryLess;
  }

  lemma {:induction false} TimesIsCongruent(a: Byte, b: nat)
    ensures Congruent(CarryLess(a, b), Times(a, b))
  {
    if b == 0 {
      XorZero(0);
      assert CarryLess(a, b) == Xor(CarryLess(MODULUS, 0), Times(a, b));
    } else {
      TimesIsCongruent(a, b / 2);
      var t: Byte := Times(a, b / 2);
      var plain: nat := t;
      var q: nat :| CarryLess(a, b / 2) == Xor(CarryLess(MODULUS, q), plain);
      var lo: Byte := if b % 2 == 1 then a else 0;
      var over := if 2 * plain < 256 then 0 else 1;
      assert CarryLess(a, b) == Xor(lo, 2 * Xor(CarryLess(MODULUS, q), plain));
      assert Times(a, b) == Xor(lo, Double(t));
      hide Xor, CarryLess, Times, Double;
      XorDouble(CarryLess(MODULUS, q), plain);
      TwiceIsDouble(t);
      CarryLessTwice(MODULUS, q);
      CarryLessAdds(MODULUS, 2 * q, over);
      XorRegroups(lo, 2 * CarryLess(MODULUS, q), Folded(t), Double(t));
      assert CarryLess(a, b) == Xor(CarryLess(MODULUS, Xor(2 * q, over)), Times(a, b));
    }
  }

  lemma XorRegroups(lo: nat, big: nat, m: nat, d: nat)
    ensures Xor(lo, Xor(big, Xor(m, d))) == Xor(Xor(big, m), Xor(lo, d))
  {
    hide Xor;
    XorAssociates(big, m, d);
    XorAssociates(lo, Xor(big, m), d);
    XorCommutes(lo, Xor(big, m));
    XorAssociates(Xor(big, m), lo, d);
  }

  lemma {:induction false} MultiplesAreLong(q: nat)
    requires q != 0
    ensures CarryLess(MODULUS, q) >= 256
  {
    if q == 1 {
      XorZero(MODULUS);
    } else {
      MultiplesAreLong(q / 2);
      var lo, hi: nat := if q % 2 == 1 then MODULUS else 0, 2 * CarryLess(MODULUS, q / 2);
      assert CarryLess(MODULUS, q) == Xor(lo, hi);
      hide Xor, CarryLess;
      XorHigh(lo, hi);
      XorZero(hi / 512);
    }
  }

  /** Long division has one remainder below the modulus' degree, so `Congruent` pins a byte. */
  lemma RemainderIsUnique(p: nat, r: Byte, s: Byte)
    requires Congruent(p, r) && Congruent(p, s)
    ensures r == s
  {
    var u: nat :| p == Xor(CarryLess(MODULUS, u), r);
    var v: nat :| p == Xor(CarryLess(MODULUS, v), s);
    var x, y := CarryLess(MODULUS, u), CarryLess(MODULUS, v);
    XorSwap(x, r, y, s);
    XorSelf(p);
    XorIsZero(Xor(x, y), Xor(r, s));
    CarryLessAdds(MODULUS, u, v);
    XorOfBytes(r, s);
    if Xor(u, v) != 0 { MultiplesAreLong(Xor(u, v)); }
    XorIsZero(r, s);
  }

  // ----- doubling is linear, so Times is too -----

  lemma DoubleAdds(a: Byte, b: Byte)
    ensures Double(Add(a, b)) == Add(Double(a), Double(b))
  {
    XorDouble(a, b);
    XorHigh(a, b);
    XorSelf(1); XorZero(1); XorZero(0);
    var x, y := 2 * a, 2 * b;
    if a >= 128 && b >= 128 {
      XorSwap(x, MODULUS, y, MODULUS);
      XorSelf(MODULUS);
      XorZero(Xor(x, y));
    } else if a >= 128 {
      XorAssociates(x, MODULUS, y);
      XorCommutes(MODULUS, y);
      XorAssociates(x, y, MODULUS);
    } else if b >= 128 {
      XorAssociates(x, y, MODULUS);
    }
  }

  lemma DoubleInjective(a: Byte, b: Byte)
    requires Double(a) == Double(b)
    ensures a == b
  {
    DoubleAdds(a, b);
    XorIsZero(Double(a), Double(b));
    XorHalf(2 * Add(a, b), MODULUS);
    XorIsZero(a, b);
    hide Xor;
  }

  lemma {:induction false} IterAdds(k: nat, a: Byte, b: Byte)
    ensures Iter(k, Add(a, b)) == Add(Iter(k, a), Iter(k, b))
  {
    if k != 0 {
      IterAdds(k - 1, a, b);
      DoubleAdds(Iter(k - 1, a), Iter(k - 1, b));
    }
  }

  lemma {:induction false} IterComposes(i: nat, j: nat, x: Byte)
    ensures Iter(i + j, x) == Iter(i, Iter(j, x))
  {
    if i != 0 { IterComposes(i - 1, j, x); }
  }

  lemma {:induction false} IterInjective(k: nat, a: Byte, b: Byte)
    requires Iter(k, a) == Iter(k, b)
    ensures a == b
  {
    if k != 0 {
      DoubleInjective(Iter(k - 1, a), Iter(k - 1, b));
      IterInjective(k - 1, a, b);
    }
  }

  lemma {:induction false} IterZero(k: nat)
    ensures Iter(k, 0) == 0
  {
    if k != 0 { IterZero(k - 1); }
  }

  lemma {:induction false} TimesAdds(a: Byte, b: nat, c: nat)
    ensures Times(a, Xor(b, c)) == Add(Times(a, b), Times(a, c))
    decreases b + c
  {
    if b == 0 {
      XorZero(c); XorZero(Times(a, c));
    } else if c == 0 {
      XorZero(b); XorZero(Times(a, b));
    } else {
      TimesAdds(a, b / 2, c / 2);
      XorHalf(b, c);
      DoubleAdds(Times(a, b / 2), Times(a, c / 2));
      var p, q := if b % 2 == 1 then a else 0, if c % 2 == 1 then a else 0;
      XorSwap(p, Double(Times(a, b / 2)), q, Double(Times(a, c / 2)));
      XorZero(a); XorSelf(a); XorZero(0);
      XorZero(Double(Times(a, Xor(b / 2, c / 2))));
    }
  }

  lemma {:induction false} TimesDoubleLeft(a: Byte, b: nat)
    ensures Times(Double(a), b) == Double(Times(a, b))
  {
    if b != 0 {
      TimesDoubleLeft(a, b / 2);
      DoubleAdds(if b % 2 == 1 then a else 0, Double(Times(a, b / 2)));
    }
  }

  lemma {:induction false} TimesIterLeft(k: nat, a: Byte, b: nat)
    ensures Times(Iter(k, a), b) == Iter(k, Times(a, b))
  {
    if k != 0 {
      TimesIterLeft(k - 1, a, b);
      TimesDoubleLeft(Iter(k - 1, a), b);
    }
  }

  lemma {:induction false} TimesOneLeft(b: Byte)
    ensures Times(1, b) == b
  {
    if b != 0 {
      TimesOneLeft(b / 2);
      XorLowBit(b % 2, b / 2);
    }
  }
}
