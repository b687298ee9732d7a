/** Doubling runs through every non-zero byte once before it comes back to 1. */
module Generator {
  import opened Bits
  import opened Field

  // ----- doubling as a shift register -----

  datatype Register = Register(b7: bool, b6: bool, b5: bool, b4: bool, b3: bool, b2: bool, b1: bool, b0: bool)

  function Bin(n: nat, b: bool): nat
  {
    2 * n + if b then 1 else 0
  }

  function Value(r: Register): Byte
  {
    Bin(Bin(Bin(Bin(Bin(Bin(Bin(Bin(0, r.b7), r.b6), r.b5), r.b4), r.b3), r.b2), r.b1), r.b0)
  }

  /** `k` doublings of the byte with these bits: overflow feeds bits 0, 2, 3 and 4, as 0x11d says. */
  function Shift(k: nat, b7: bool, b6: bool, b5: bool, b4: bool, b3: bool, b2: bool, b1: bool, b0: bool): Register
    decreases k
  {
    if k == 0 then Register(b7, b6, b5, b4, b3, b2, b1, b0)
    else Shift(k - 1, b6, b5, b4, b3 != b7, b2 != b7, b1 != b7, b0, b7)
  }

  lemma XorBin(n: nat, b: bool, m: nat, c: bool)
    ensures Xor(Bin(n, b), Bin(m, c)) == Bin(Xor(n, m), b != c)
  {
    var x, y := Bin(n, b), Bin(m, c);
    assert x / 2 == n && y / 2 == m;
    assert x % 2 == y % 2 <==> b == c;
    if x == 0 && y == 0 { XorZero(0); }
  }

  /** The low taps of 0x11d under a doubled byte. */
  lemma LowTaps(n: nat, b3: bool, b2: bool, b1: bool, b0: bool)
    ensures Xor(Bin(Bin(Bin(Bin(Bin(n, b3), b2), b1), b0), false), 0x11d)
         == Bin(Bin(Bin(Bin(Bin(Xor(n, 8), !b3), !b2), !b1), b0), true)
  {
    hide Xor;
    XorBin(n, b3, 8, true);
    XorBin(Bin(n, b3), b2, 0x11, true);
    XorBin(Bin(Bin(n, b3), b2), b1, 0x23, true);
    XorBin(Bin(Bin(Bin(n, b3), b2), b1), b0, 0x47, false);
    XorBin(Bin(Bin(Bin(Bin(n, b3), b2), b1), b0), false, 0x8e, true);
  }

  /** The high tap removes the bit that overflowed. */
  lemma HighTap(b6: bool, b5: bool, b4: bool)
    ensures Xor(Bin(Bin(Bin(1, b6), b5), b4), 8) == Bin(Bin(Bin(0, b6), b5), b4)
  {
    XorSelf(1);
    XorBin(1, b6, 1, false);
    XorBin(Bin(1, b6), b5, 2, false);
    XorBin(Bin(Bin(1, b6), b5), b4, 4, false);
  }

  lemma ShiftOverflows(r: Register)
    requires r.b7
    ensures Double(Value(r)) == Value(Register(r.b6, r.b5, r.b4, !r.b3, !r.b2, !r.b1, r.b0, true))
  {
    LowTaps(Bin(Bin(Bin(1, r.b6), r.b5), r.b4), r.b3, r.b2, r.b1, r.b0);
    HighTap(r.b6, r.b5, r.b4);
  }

  lemma ShiftDoubles(r: Register)
    ensures Double(Value(r)) == Value(Shift(1, r.b7, r.b6, r.b5, r.b4, r.b3, r.b2, r.b1, r.b0))
  {
    if r.b7 { ShiftOverflows(r); }
  }

  lemma {:induction false} ShiftIsIter(k: nat, r: Register)
    ensures Value(Shift(k, r.b7, r.b6, r.b5, r.b4, r.b3, r.b2, r.b1, r.b0)) == Iter(k, Value(r))
  {
    hide Iter, Value, Double;
    IterStep(0, Value(r));
    if k != 0 {
      ShiftDoubles(r);
      ShiftIsIter(k - 1, Shift(1, r.b7, r.b6, r.b5, r.b4, r.b3, r.b2, r.b1, r.b0));
      IterComposes(k - 1, 1, Value(r));
    }
  }

  // ----- the order of 2 -----

  function Read(s: string): Register
    requires |s| == 8
  {
    Register(s[0] == '1', s[1] == '1', s[2] == '1', s[3] == '1', s[4] == '1', s[5] == '1', s[6] == '1', s[7] == '1')
  }

  /** From the byte after `j` doublings to the byte `k` doublings later. */
  lemma Hop(k: nat, j: nat, n: nat, s: string, t: string)
    requires |s| == |t| == 8 && n == j + k
    requires Iter(j, 1) == Value(Read(s))
    requires Shift(k, s[0] == '1', s[1] == '1', s[2] == '1', s[3] == '1',
                   s[4] == '1', s[5] == '1', s[6] == '1', s[7] == '1') == Read(t)
    ensures Iter(n, 1) == Value(Read(t))
  {
    hide Shift, Value, Iter;
    ShiftIsIter(k, Read(s));
    IterComposes(k, j, 1);
  }

  lemma To36()
    ensures Iter(36, 1) == Value(Read("00100101")) && Iter(15, 1) == Value(Read("00100110"))
  {
    IterStep(0, 1);
    assert Iter(0, 1) == Value(Read("00000001"));
    hide Iter, Value;
    Hop(12, 0, 12, "00000001", "11001101");
    Hop(12, 12, 24, "11001101", "10001111");
    Hop(12, 24, 36, "10001111", "00100101");
    Hop(3, 12, 15, "11001101", "00100110");
  }

  lemma To72()
    ensures Iter(72, 1) == Value(Read("01100101")) && Iter(51, 1) == Value(Read("00001010"))
  {
    hide Iter, Value;
    To36();
    Hop(12, 36, 48, "00100101", "01000110");
    Hop(12, 48, 60, "01000110", "10111001");
    Hop(12, 60, 72, "10111001", "01100101");
    Hop(3, 48, 51, "01000110", "00001010");
  }

  lemma To108()
    ensures Iter(108, 1) == Value(Read("11010000")) && Iter(85, 1) == Value(Read("11010110"))
  {
    hide Iter, Value;
    To72();
    Hop(12, 72, 84, "01100101", "01101011");
    Hop(12, 84, 96, "01101011", "11011001");
    Hop(12, 96, 108, "11011001", "11010000");
    Hop(1, 84, 85, "01101011", "11010110");
  }

  lemma To144()
    ensures Iter(144, 1) == Value(Read("10101000"))
  {
    hide Iter, Value;
    To108();
    Hop(12, 108, 120, "11010000", "00111011");
    Hop(12, 120, 132, "00111011", "10111000");
    Hop(12, 132, 144, "10111000", "10101000");
  }

  lemma To180()
    ensures Iter(180, 1) == Value(Read("10010110"))
  {
    hide Iter, Value;
    To144();
    Hop(12, 144, 156, "10101000", "11100100");
    Hop(12, 156, 168, "11100100", "11111100");
    Hop(12, 168, 180, "11111100", "10010110");
  }

  lemma To216()
    ensures Iter(216, 1) == Value(Read("11000011"))
  {
    hide Iter, Value;
    To180();
    Hop(12, 180, 192, "10010110", "10000010");
    Hop(12, 192, 204, "10000010", "11011101");
    Hop(12, 204, 216, "11011101", "11000011");
  }

  lemma To255()
    ensures Iter(255, 1) == Value(Read("00000001"))
  {
    hide Iter, Value;
    To216();
    Hop(12, 216, 228, "11000011", "00111101");
    Hop(12, 228, 240, "00111101", "00101100");
    Hop(12, 240, 252, "00101100", "10101101");
    Hop(3, 252, 255, "10101101", "00000001");
  }

  /** 2 returns to 1 after 255 doublings and after none of 255/3, 255/5, 255/17. */
  lemma OrderOfTwo()
    ensures Iter(255, 1) == 1
    ensures Iter(15, 1) != 1 && Iter(51, 1) != 1 && Iter(85, 1) != 1
  {
    hide Iter;
    To36(); To72(); To108(); To255();
  }
}
