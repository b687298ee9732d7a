/** packages/shared/src/index.ts: `generateTrustId` and `isValidTrustId`. */
module TrustId {
  import opened Bits
  import opened Results
  import P = Positional

  const CROCKFORD: string := "0123456789ABCDEFGHJKMNPQRSTVWXYZ"

  /** `[0-9A-HJKMNP-TV-Z]`. */
  predicate IsSymbol(c: char)
  {
    '0' <= c <= '9' || 'A' <= c <= 'H' || c == 'J' || c == 'K' || c == 'M' || c == 'N' || 'P' <= c <= 'T'
    || 'V' <= c <= 'Z'
  }

  predicate IsValidTrustId(id: string)
  {
    |id| == 11 && id[..3] == "TD-" && forall i :: 3 <= i < 11 ==> IsSymbol(id[i])
  }

  function Symbol(d: nat): char
    requires d < 32
  {
    CROCKFORD[d]
  }

  function SymbolValue(c: char): (d: nat)
    requires IsSymbol(c)
    ensures d < 32
  {
    if c <= '9' then (c - '0') as nat
    else if c <= 'H' then (c - 'A') as nat + 10
    else if c <= 'K' then (c - 'J') as nat + 18
    else if c <= 'N' then (c - 'M') as nat + 20
    else if c <= 'T' then (c - 'P') as nat + 22
    else (c - 'V') as nat + 27
  }

  lemma SymbolsInvert(d: nat)
    requires d < 32
    ensures IsSymbol(Symbol(d)) && SymbolValue(Symbol(d)) == d
  {
    var s := CROCKFORD;
    if d < 16 {
      if d < 8 {
        assert d == 0 || d == 1 || d == 2 || d == 3 || d == 4 || d == 5 || d == 6 || d == 7;
      } else {
        assert d == 8 || d == 9 || d == 10 || d == 11 || d == 12 || d == 13 || d == 14 || d == 15;
      }
    } else if d < 24 {
      assert d == 16 || d == 17 || d == 18 || d == 19 || d == 20 || d == 21 || d == 22 || d == 23;
    } else {
      assert d == 24 || d == 25 || d == 26 || d == 27 || d == 28 || d == 29 || d == 30 || d == 31;
    }
  }

  lemma ValuesInvert(c: char)
    requires IsSymbol(c)
    ensures Symbol(SymbolValue(c)) == c
  {
  }

  // ----- the identifier of five bytes, and the five bytes of an identifier -----

  function Symbols(ds: seq<nat>): (s: string)
    requires forall i :: 0 <= i < |ds| ==> ds[i] < 32
    ensures |s| == |ds| && forall i :: 0 <= i < |ds| ==> s[i] == Symbol(ds[i])
  {
    seq(|ds|, i requires 0 <= i < |ds| => Symbol(ds[i]))
  }

  function SymbolValues(s: string): (ds: seq<nat>)
    requires forall i :: 0 <= i < |s| ==> IsSymbol(s[i])
    ensures |ds| == |s| && forall i :: 0 <= i < |s| ==> ds[i] == SymbolValue(s[i])
  {
    seq(|s|, i requires 0 <= i < |s| => SymbolValue(s[i]))
  }

  function IdOf(bytes: seq<Byte>): string
    requires |bytes| >= 5
  {
    "TD-" + Symbols(P.Digits(32, 8, P.Value(256, bytes[..5])))
  }

  function BytesOf(id: string): (b: seq<Byte>)
    requires IsValidTrustId(id)
    ensures |b| == 5
  {
    var v := P.Value(32, SymbolValues(id[3..]));
    var ds := P.Digits(256, 5, v);
    seq(5, i requires 0 <= i < 5 => ds[i])
  }

  lemma FortyBits()
    ensures P.Power(256, 5) == P.Power(32, 8)
  {
    assert P.Power(256, 5) == 0x100_0000_0000;
    assert P.Power(32, 4) == 0x10_0000;
    assert P.Power(32, 8) == 32 * (32 * (32 * (32 * P.Power(32, 4))));
  }

  /** Every identifier made is valid, and it keeps the five bytes it was made from. */
  lemma IdKeepsBytes(bytes: seq<Byte>)
    requires |bytes| >= 5
    ensures IsValidTrustId(IdOf(bytes)) && BytesOf(IdOf(bytes)) == bytes[..5]
  {
    hide Symbol, IsSymbol, SymbolValue;
    var b: seq<nat> := bytes[..5];
    var v := P.Value(256, b);
    P.DigitsOfValue(256, b);
    FortyBits();
    P.ValueOfDigits(32, 8, v);
    var ds := P.Digits(32, 8, v);
    var id := IdOf(bytes);
    forall i | 3 <= i < 11 ensures IsSymbol(id[i]) && SymbolValue(id[i]) == ds[i - 3] { SymbolsInvert(ds[i - 3]); }
    assert id[..3] == "TD-";
    assert SymbolValues(id[3..]) == ds;
  }

  /** Every valid identifier comes from its five bytes, so the correspondence is one to one and onto. */
  lemma BytesKeepId(id: string)
    requires IsValidTrustId(id)
    ensures IdOf(BytesOf(id)) == id
  {
    hide Symbol, IsSymbol, SymbolValue;
    var ds := SymbolValues(id[3..]);
    P.DigitsOfValue(32, ds);
    FortyBits();
    var v := P.Value(32, ds);
    P.ValueOfDigits(256, 5, v);
    var b: seq<nat> := BytesOf(id);
    assert b[..5] == b == P.Digits(256, 5, v);
    forall i | 0 <= i < 8 ensures Symbols(ds)[i] == id[3 + i] { ValuesInvert(id[3 + i]); }
    assert id == id[..3] + id[3..];
    assert Symbols(ds) == id[3..];
  }

  /** The two loops of `generateTrustId`; shifts by 8 and 5 bits are products and quotients. */
  method GenerateTrustId(randomBytes: seq<Byte>) returns (r: Result<string>)
    ensures r == if |randomBytes| < 5 then Err("Need at least 5 random bytes for TrustID") else Ok(IdOf(randomBytes))
  {
    if |randomBytes| < 5 {
      return Err("Need at least 5 random bytes for TrustID");
    }
    var value: nat := 0;
    for i := 0 to 5
      invariant value == P.Value(256, randomBytes[..i])
    {
      assert randomBytes[..i + 1][..i] == randomBytes[..i];
      value := value * 256 + randomBytes[i];
    }
    ghost var v := value;
    var out := "";
    for i := 0 to 8
      invariant value == P.Drop(32, i, v)
      invariant out == Symbols(P.Digits(32, i, v))
    {
      P.DigitsFront(32, i, v);
      P.DropStep(32, i, v);
      assert Symbols([value % 32] + P.Digits(32, i, v)) == [Symbol(value % 32)] + out;
      out := [CROCKFORD[value % 32]] + out;
      value := value / 32;
    }
    return Ok("TD-" + out);
  }
}
