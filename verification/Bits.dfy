/** Exclusive or on the non-negative numbers the source keeps its bytes in, and the laws of it. */
module Bits {

  type Byte = x: nat | x < 256

  /** The source's `a ^ b` on non-negative numbers, bit by bit from the lowest. */
  function Xor(a: nat, b: nat): (r: nat)
    decreases a + b
  {
    if a == 0 && b == 0 then 0
    else if a % 2 == b % 2 then 2 * Xor(a / 2, b / 2)
    else 2 * Xor(a / 2, b / 2) + 1
  }

  lemma {:induction false} XorZero(a: nat)
    ensures Xor(a, 0) == a && Xor(0, a) == a
  {
    if a != 0 { XorZero(a / 2); }
  }

  lemma {:induction false} XorSelf(a: nat)
    ensures Xor(a, a) == 0
  {
    if a != 0 { XorSelf(a / 2); }
  }

  lemma {:induction false} XorCommutes(a: nat, b: nat)
    ensures Xor(a, b) == Xor(b, a)
    decreases a + b
  {
    if a != 0 || b != 0 { XorCommutes(a / 2, b / 2); }
  }

  lemma {:induction false} XorAssociates(a: nat, b: nat, c: nat)
    ensures Xor(Xor(a, b), c) == Xor(a, Xor(b, c))
    decreases a + b + c
  {
    if a != 0 || b != 0 || c != 0 {
      XorAssociates(a / 2, b / 2, c / 2);
      XorHalf(a, b);
      XorHalf(b, c);
    }
  }

  lemma XorHalf(a: nat, b: nat)
    ensures Xor(a, b) / 2 == Xor(a / 2, b / 2)
    ensures Xor(a, b) % 2 == (if a % 2 == b % 2 then 0 else 1)
  {
  }

  lemma XorDouble(a: nat, b: nat)
    ensures Xor(2 * a, 2 * b) == 2 * Xor(a, b)
  {
    XorZero(0);
  }

  /** Setting a free lowest bit is the same as adding it. */
  lemma XorLowBit(c: nat, n: nat)
    requires c < 2
    ensures Xor(c, 2 * n) == 2 * n + c
  {
    XorZero(n);
    XorZero(0);
  }

  function Shr(a: nat, k: nat): nat
  {
    if k == 0 then a else Shr(a / 2, k - 1)
  }

  lemma {:induction false} XorShr(a: nat, b: nat, k: nat)
    ensures Shr(Xor(a, b), k) == Xor(Shr(a, k), Shr(b, k))
  {
    if k != 0 {
      XorHalf(a, b);
      XorShr(a / 2, b / 2, k - 1);
    }
  }

  function Pow2(k: nat): nat
  {
    if k == 0 then 1 else 2 * Pow2(k - 1)
  }

  lemma TwiceAProduct(p: nat, q: nat)
    ensures (2 * p) * q == 2 * (p * q)
  {
  }

  lemma {:induction false} ShrBounds(a: nat, k: nat)
    ensures Pow2(k) * Shr(a, k) <= a < Pow2(k) * Shr(a, k) + Pow2(k)
  {
    if k != 0 {
      ShrBounds(a / 2, k - 1);
      TwiceAProduct(Pow2(k - 1), Shr(a / 2, k - 1));
    }
  }

  lemma ShrDivides(a: nat)
    ensures Shr(a, 7) == a / 128
    ensures Shr(a, 8) == a / 256
    ensures Shr(a, 9) == a / 512
  {
    ShrBounds(a, 7);
    ShrBounds(a, 8);
    ShrBounds(a, 9);
    assert Pow2(4) == 16 && Pow2(7) == 128 && Pow2(8) == 256 && Pow2(9) == 512;
    hide Shr, Pow2;
  }

  /** Xor acts separately on what lies above the lowest 7, 8 or 9 bits. */
  lemma XorHigh(a: nat, b: nat)
    ensures Xor(a, b) / 128 == Xor(a / 128, b / 128)
    ensures Xor(a, b) / 256 == Xor(a / 256, b / 256)
    ensures Xor(a, b) / 512 == Xor(a / 512, b / 512)
  {
    hide Xor, Shr;
    XorShr(a, b, 7); XorShr(a, b, 8); XorShr(a, b, 9);
    ShrDivides(a); ShrDivides(b); ShrDivides(Xor(a, b));
  }

  /** Four operands: the inner two change places. */
  lemma XorSwap(a: nat, b: nat, c: nat, d: nat)
    ensures Xor(Xor(a, b), Xor(c, d)) == Xor(Xor(a, c), Xor(b, d))
  {
    XorAssociates(a, b, Xor(c, d));
    XorAssociates(b, c, d);
    XorCommutes(b, c);
    XorAssociates(c, b, d);
    XorAssociates(a, c, Xor(b, d));
  }

  /** Two equal neighbours cancel, wherever they stand. */
  lemma XorCancel(a: nat, b: nat)
    ensures Xor(Xor(a, b), b) == a && Xor(b, Xor(b, a)) == a
  {
    XorAssociates(a, b, b);
    XorAssociates(b, b, a);
    XorSelf(b);
    XorZero(a);
  }

  lemma XorIsZero(a: nat, b: nat)
    ensures Xor(a, b) == 0 <==> a == b
  {
    XorSelf(a);
    XorCancel(a, b);
    XorZero(b);
  }

  lemma XorOfBytes(a: Byte, b: Byte)
    ensures Xor(a, b) < 256
  {
    XorHigh(a, b);
  }
}
