/** packages/sovereign-crypto/src/encoding.ts: unpadded base64url (section 5 of RFC 4648). */
module Base64Url {
  import opened Bits
  import opened Results

  /** Where the code runs: `Buffer` is there, or only `btoa` and `atob` are.  `lenient` is whatever
      Buffer makes of text that is not base64; it stays open. */
  datatype Platform = Node(lenient: string -> seq<Byte>) | Web

  // ----- the alphabet of section 4 of RFC 4648 -----

  function Letter(v: nat): char
    requires v < 64
  {
    if v < 26 then 'A' + v as char
    else if v < 52 then 'a' + (v - 26) as char
    else if v < 62 then '0' + (v - 52) as char
    else if v == 62 then '+' else '/'
  }

  predicate IsLetter(c: char)
  {
    'A' <= c <= 'Z' || 'a' <= c <= 'z' || '0' <= c <= '9' || c == '+' || c == '/'
  }

  function Sextet(c: char): (v: nat)
    requires IsLetter(c)
    ensures v < 64
  {
    if 'A' <= c <= 'Z' then (c - 'A') as nat
    else if 'a' <= c <= 'z' then (c - 'a') as nat + 26
    else if '0' <= c <= '9' then (c - '0') as nat + 52
    else if c == '+' then 62 else 63
  }

  lemma LetterOf(v: nat)
    requires v < 64
    ensures IsLetter(Letter(v)) && Sextet(Letter(v)) == v
  {
  }

  lemma SextetOf(c: char)
    requires IsLetter(c)
    ensures Letter(Sextet(c)) == c
  {
  }

  // ----- three bytes are four sextets -----

  type Six = v: nat | v < 64

  function S0(x: nat): Six requires x < 256 { x / 4 }
  function S1(x: nat, y: nat): Six requires y < 256 { x % 4 * 16 + y / 16 }
  function S2(y: nat, z: nat): Six requires z < 256 { y % 16 * 4 + z / 64 }
  function S3(z: nat): Six { z % 64 }

  function B0(v: nat, w: nat): Byte requires v < 64 && w < 64 { v * 4 + w / 16 }
  function B1(w: nat, x: nat): Byte requires x < 64 { w % 16 * 16 + x / 4 }
  function B2(x: nat, y: nat): Byte requires y < 64 { x % 4 * 64 + y }

  function Split(b: seq<Byte>): seq<Six>
  {
    if b == [] then []
    else if |b| == 1 then [S0(b[0]), S1(b[0], 0)]
    else if |b| == 2 then [S0(b[0]), S1(b[0], b[1]), S2(b[1], 0)]
    else [S0(b[0]), S1(b[0], b[1]), S2(b[1], b[2]), S3(b[2])] + Split(b[3..])
  }

  /** The bytes that sextets spell; bits left over at the end are dropped. */
  function Join(s: seq<Six>): seq<Byte>
    requires |s| % 4 != 1
  {
    if s == [] then []
    else if |s| == 2 then [B0(s[0], s[1])]
    else if |s| == 3 then [B0(s[0], s[1]), B1(s[1], s[2])]
    else [B0(s[0], s[1]), B1(s[1], s[2]), B2(s[2], s[3])] + Join(s[4..])
  }

  lemma BytesOfSextets(x: Byte, y: Byte, z: Byte)
    ensures B0(S0(x), S1(x, y)) == x && B1(S1(x, y), S2(y, z)) == y && B2(S2(y, z), S3(z)) == z
  {
  }

  lemma SextetsOfBytes(v: Six, w: Six, x: Six, y: Six)
    ensures S0(B0(v, w)) == v && S1(B0(v, w), B1(w, x)) == w && S2(B1(w, x), B2(x, y)) == x && S3(B2(x, y)) == y
  {
  }

  lemma SpareBits(v: Six, w: Six, x: Six)
    ensures S1(B0(v, w), 0) == w <==> w % 16 == 0
    ensures S2(B1(w, x), 0) == x <==> x % 4 == 0
  {
  }

  lemma {:induction false} JoinSplit(b: seq<Byte>)
    ensures |Split(b)| == (4 * |b| + 2) / 3 && |Split(b)| % 4 != 1
    ensures Join(Split(b)) == b
  {
    hide S0, S1, S2, S3, B0, B1, B2;
    if |b| == 1 {
      BytesOfSextets(b[0], 0, 0);
    } else if |b| == 2 {
      BytesOfSextets(b[0], b[1], 0);
    } else if |b| >= 3 {
      JoinSplit(b[3..]);
      assert Split(b)[4..] == Split(b[3..]);
      BytesOfSextets(b[0], b[1], b[2]);
      assert b == [b[0], b[1], b[2]] + b[3..];
    }
  }

  /** Bits that the last sextet carries beyond the last byte. */
  predicate NoSpareBits(s: seq<Six>)
  {
    (|s| % 4 == 2 ==> s[|s| - 1] % 16 == 0) && (|s| % 4 == 3 ==> s[|s| - 1] % 4 == 0)
  }

  lemma {:induction false} SplitJoin(s: seq<Six>)
    requires |s| % 4 != 1
    ensures Split(Join(s)) == s <==> NoSpareBits(s)
  {
    hide S0, S1, S2, S3, B0, B1, B2;
    if |s| == 2 {
      SextetsOfBytes(s[0], s[1], 0, 0);
      SpareBits(s[0], s[1], 0);
      assert s == [s[0], s[1]];
    } else if |s| == 3 {
      SextetsOfBytes(s[0], s[1], s[2], 0);
      SpareBits(s[0], s[1], s[2]);
      assert s == [s[0], s[1], s[2]];
    } else if |s| >= 4 {
      SplitJoin(s[4..]);
      var b := Join(s);
      assert b[3..] == Join(s[4..]);
      SextetsOfBytes(s[0], s[1], s[2], s[3]);
      assert s == [s[0], s[1], s[2], s[3]] + s[4..];
      assert Split(b)[4..] == Split(b[3..]);
    }
  }

  // ----- letters and padding -----

  function Write(v: seq<Six>): (s: string)
    ensures |s| == |v| && forall i :: 0 <= i < |v| ==> s[i] == Letter(v[i])
  {
    seq(|v|, i requires 0 <= i < |v| => Letter(v[i]))
  }

  predicate AllLetters(s: string)
  {
    forall i :: 0 <= i < |s| ==> IsLetter(s[i])
  }

  function Read(s: string): (v: seq<Six>)
    requires AllLetters(s)
    ensures |v| == |s| && forall i :: 0 <= i < |s| ==> v[i] == Sextet(s[i])
  {
    seq(|s|, i requires 0 <= i < |s| => Sextet(s[i]))
  }

  lemma ReadWrite(v: seq<Six>)
    ensures AllLetters(Write(v)) && Read(Write(v)) == v
  {
    forall i | 0 <= i < |v| ensures IsLetter(Write(v)[i]) && Sextet(Write(v)[i]) == v[i] { LetterOf(v[i]); }
  }

  lemma WriteRead(s: string)
    requires AllLetters(s)
    ensures Write(Read(s)) == s
  {
    forall i | 0 <= i < |s| ensures Letter(Sextet(s[i])) == s[i] { SextetOf(s[i]); }
  }

  function Letters(b: seq<Byte>): string
  {
    Write(Split(b))
  }

  function Spelled(s: string): seq<Byte>
    requires AllLetters(s) && |s| % 4 != 1
  {
    Join(Read(s))
  }

  function Padding(n: nat): string
    requires n <= 3
  {
    if n == 0 then "" else if n == 1 then "=" else if n == 2 then "==" else "==="
  }

  /** `Buffer.toString("base64")` and `btoa` of the bytes. */
  function Base64(b: seq<Byte>): string
  {
    Letters(b) + Padding((3 - |b| % 3) % 3)
  }

  lemma SpelledLetters(b: seq<Byte>)
    ensures |Letters(b)| == (4 * |b| + 2) / 3 && |Letters(b)| % 4 != 1
    ensures AllLetters(Letters(b)) && Spelled(Letters(b)) == b
  {
    hide Join, Split;
    JoinSplit(b);
    ReadWrite(Split(b));
  }

  // ----- the url alphabet -----

  function ToUrl(c: char): char
  {
    if c == '+' then '-' else if c == '/' then '_' else c
  }

  function FromUrl(c: char): char
  {
    if c == '-' then '+' else if c == '_' then '/' else c
  }

  predicate IsUrlLetter(c: char)
  {
    'A' <= c <= 'Z' || 'a' <= c <= 'z' || '0' <= c <= '9' || c == '-' || c == '_'
  }

  function MapChars(f: char -> char, s: string): (r: string)
    ensures |r| == |s| && forall i :: 0 <= i < |s| ==> r[i] == f(s[i])
  {
    seq(|s|, i requires 0 <= i < |s| => f(s[i]))
  }

  /** `replace(/=+$/, "")`. */
  function StripPadding(s: string): string
  {
    if s != [] && s[|s| - 1] == '=' then StripPadding(s[..|s| - 1]) else s
  }

  function Encoded(b: seq<Byte>): string
  {
    StripPadding(MapChars(ToUrl, Base64(b)))
  }

  lemma {:induction false} StripsOnlyPadding(s: string, n: nat)
    requires n <= 3 && (forall i :: 0 <= i < |s| ==> s[i] != '=')
    ensures StripPadding(s + Padding(n)) == s
  {
    if n == 0 {
      assert s + Padding(0) == s;
    } else {
      assert (s + Padding(n))[..|s| + n - 1] == s + Padding(n - 1);
      StripsOnlyPadding(s, n - 1);
    }
  }

  lemma ToUrlOfLetter(c: char)
    requires IsLetter(c)
    ensures IsUrlLetter(ToUrl(c)) && ToUrl(c) != '='
  {
  }

  lemma MapPadding(s: string, n: nat)
    requires n <= 3
    ensures MapChars(ToUrl, s + Padding(n)) == MapChars(ToUrl, s) + Padding(n)
  {
  }

  /** Only url letters, and never a length that is 1 modulo 4. */
  lemma EncodedIsUnpadded(b: seq<Byte>)
    ensures Encoded(b) == MapChars(ToUrl, Letters(b))
    ensures |Encoded(b)| == (4 * |b| + 2) / 3 && |Encoded(b)| % 4 != 1
    ensures forall i :: 0 <= i < |Encoded(b)| ==> IsUrlLetter(Encoded(b)[i])
  {
    hide IsLetter, IsUrlLetter, Letters, ToUrl, Padding, StripPadding;
    SpelledLetters(b);
    var u := MapChars(ToUrl, Letters(b));
    forall i | 0 <= i < |u| ensures IsUrlLetter(u[i]) && u[i] != '=' {
      assert IsLetter(Letters(b)[i]);
      ToUrlOfLetter(Letters(b)[i]);
    }
    MapPadding(Letters(b), (3 - |b| % 3) % 3);
    StripsOnlyPadding(u, (3 - |b| % 3) % 3);
  }

  // ----- decoding -----

  /** The ASCII whitespace that `atob` removes. */
  function WithoutSpace(s: string): string
  {
    if s == [] then []
    else (if s[0] in "\t\n\r " || s[0] as int == 12 then [] else [s[0]]) + WithoutSpace(s[1..])
  }

  function DropPadding(s: string): string
  {
    if |s| % 4 != 0 || s == [] || s[|s| - 1] != '=' then s
    else if s[|s| - 2] == '=' then s[..|s| - 2] else s[..|s| - 1]
  }

  /** The bytes `atob` finds, or nothing where it throws. */
  function Atob(s: string): Option<seq<Byte>>
  {
    var t := DropPadding(WithoutSpace(s));
    if AllLetters(t) && |t| % 4 != 1 then Some(Spelled(t)) else None
  }

  /** Base64 that is padded to a multiple of four and holds nothing else. */
  predicate WellFormed(s: string)
  {
    |s| % 4 == 0 && AllLetters(DropPadding(s)) && |DropPadding(s)| % 4 != 1
  }

  function Padded(t: string): string
  {
    t + Padding((4 - |t| % 4) % 4)
  }

  /** What `atob` throws. */
  function InvalidCharacter(): string
  {
    "InvalidCharacterError"
  }

  function Decoded(p: Platform, s: string): Result<seq<Byte>>
  {
    var b64 := Padded(MapChars(FromUrl, s));
    if p.Node? then
      if WellFormed(b64) then Ok(Spelled(DropPadding(b64))) else Ok(p.lenient(b64))
    else
      match Atob(b64)
      case Some(b) => Ok(b)
      case None => Err(InvalidCharacter())
  }

  lemma PaddingIsDropped(t: string, n: nat)
    requires AllLetters(t) && n <= 2 && (|t| + n) % 4 == 0
    ensures DropPadding(t + Padding(n)) == t
  {
    hide IsLetter;
    EqualsSign();
    var u := t + Padding(n);
    if n == 0 {
      assert u == t;
      if t != [] { assert IsLetter(t[|t| - 1]); }
    } else if n == 1 {
      assert u[..|u| - 1] == t;
      assert IsLetter(t[|t| - 1]);
    } else {
      assert u[..|u| - 2] == t;
    }
  }

  lemma {:induction false} NothingToRemove(s: string)
    requires forall i :: 0 <= i < |s| ==> IsLetter(s[i]) || s[i] == '='
    ensures WithoutSpace(s) == s
  {
    if s != [] {
      forall i | 0 <= i < |s[1..]| ensures IsLetter(s[1..][i]) || s[1..][i] == '=' { assert s[1..][i] == s[i + 1]; }
      NothingToRemove(s[1..]);
      assert IsLetter(s[0]) || s[0] == '=';
      assert s == [s[0]] + s[1..];
    }
  }

  lemma FromUrlLetters(s: string)
    requires forall i :: 0 <= i < |s| ==> IsUrlLetter(s[i])
    ensures AllLetters(MapChars(FromUrl, s))
  {
    forall i | 0 <= i < |s| ensures IsLetter(FromUrl(s[i])) { assert IsUrlLetter(s[i]); }
  }

  /** What is left of the padded text when the padding is dropped: too much only at an impossible length. */
  lemma PaddedDrops(t: string)
    requires AllLetters(t)
    ensures var b64 := Padded(t);
      && |b64| % 4 == 0 && WithoutSpace(b64) == b64
      && (|t| % 4 != 1 ==> DropPadding(b64) == t) && (|t| % 4 == 1 ==> !AllLetters(DropPadding(b64)))
  {
    hide IsLetter, WithoutSpace;
    var n := (4 - |t| % 4) % 4;
    var b64 := t + Padding(n);
    NothingToRemove(b64);
    if n <= 2 {
      PaddingIsDropped(t, n);
    } else {
      EqualsSign();
      assert DropPadding(b64)[|t|] == '=';
    }
  }

  /**
   On url letters the platforms agree, as long as the length is possible; at the impossible
   lengths the web platform throws.
   */
  lemma PlatformsAgree(p: Platform, s: string)
    requires forall i :: 0 <= i < |s| ==> IsUrlLetter(s[i])
    ensures |s| % 4 != 1 ==> AllLetters(MapChars(FromUrl, s)) && Decoded(p, s) == Ok(Spelled(MapChars(FromUrl, s)))
    ensures |s| % 4 == 1 && p.Web? ==> Decoded(p, s).Err?
  {
    FromUrlLetters(s);
    PaddedDrops(MapChars(FromUrl, s));
    hide Spelled, WithoutSpace, DropPadding, AllLetters, IsUrlLetter, FromUrl, Padded, InvalidCharacter;
  }

  lemma EqualsSign()
    ensures !IsLetter('=')
  {
  }

  lemma {:induction false} DecodeEncode(p: Platform, b: seq<Byte>)
    ensures Decoded(p, Encoded(b)) == Ok(b)
  {
    EncodedIsUnpadded(b);
    SpelledLetters(b);
    PlatformsAgree(p, Encoded(b));
    assert MapChars(FromUrl, Encoded(b)) == Letters(b) by {
      forall i | 0 <= i < |Letters(b)| ensures FromUrl(Encoded(b)[i]) == Letters(b)[i] {
        assert IsLetter(Letters(b)[i]);
      }
    }
  }

  /** Decoding loses nothing exactly when no spare bit is set: otherwise two texts name the same bytes. */
  lemma EncodeDecode(p: Platform, s: string)
    requires (forall i :: 0 <= i < |s| ==> IsUrlLetter(s[i])) && |s| % 4 != 1
    ensures AllLetters(MapChars(FromUrl, s)) && Decoded(p, s).Ok?
    ensures Encoded(Decoded(p, s).value) == s <==> NoSpareBits(Read(MapChars(FromUrl, s)))
  {
    hide Join, Split, Decoded, Encoded, IsLetter, Sextet;
    PlatformsAgree(p, s);
    var t := MapChars(FromUrl, s);
    var v := Read(t);
    SplitJoin(v);
    EncodedIsUnpadded(Join(v));
    var l := Letters(Join(v));
    UrlAndBack(s);
    WriteRead(t);
    SpelledLetters(Join(v));
    if MapChars(ToUrl, l) == s {
      ToUrlInjective(l, t);
      ReadWrite(Split(Join(v)));
    }
  }

  lemma UrlAndBack(s: string)
    requires forall i :: 0 <= i < |s| ==> IsUrlLetter(s[i])
    ensures MapChars(ToUrl, MapChars(FromUrl, s)) == s
  {
    forall i | 0 <= i < |s| ensures ToUrl(FromUrl(s[i])) == s[i] { assert IsUrlLetter(s[i]); }
  }

  lemma ToUrlInjective(l: string, t: string)
    requires AllLetters(l) && AllLetters(t) && MapChars(ToUrl, l) == MapChars(ToUrl, t)
    ensures l == t
  {
    assert |l| == |MapChars(ToUrl, l)| == |t|;
    forall i | 0 <= i < |l| ensures l[i] == t[i] {
      assert MapChars(ToUrl, l)[i] == MapChars(ToUrl, t)[i];
      assert IsLetter(l[i]) && IsLetter(t[i]);
    }
  }

  // ----- the two entry points -----

  function Binary(b: seq<Byte>): (s: string)
    ensures |s| == |b| && forall i :: 0 <= i < |b| ==> s[i] as nat == b[i]
  {
    seq(|b|, i requires 0 <= i < |b| => b[i] as char)
  }

  /** `btoa` throws on a character above 255. */
  function Btoa(s: string): Option<string>
  {
    if exists i :: 0 <= i < |s| && s[i] as nat > 255 then None
    else Some(Base64(seq(|s|, i requires 0 <= i < |s| => s[i] as nat)))
  }

  method BytesToBase64Url(p: Platform, bytes: seq<Byte>) returns (s: string)
    ensures s == Encoded(bytes)
  {
    if p.Node? {
      return StripPadding(MapChars(ToUrl, Base64(bytes)));
    }
    var t := "";
    for i := 0 to |bytes|
      invariant t == Binary(bytes[..i])
    {
      assert bytes[..i + 1] == bytes[..i] + [bytes[i]];
      t := t + [bytes[i] as char];
    }
    assert bytes[..|bytes|] == bytes;
    assert Btoa(t) == Some(Base64(bytes)) by {
      assert seq(|t|, i requires 0 <= i < |t| => t[i] as nat) == bytes;
    }
    return StripPadding(MapChars(ToUrl, Btoa(t).value));
  }

  method Base64UrlToBytes(p: Platform, s: string) returns (r: Result<seq<Byte>>)
    ensures r == Decoded(p, s)
  {
    var mapped := MapChars(FromUrl, s);
    var pad := (4 - |s| % 4) % 4;
    var b64 := mapped + Padding(pad);
    assert b64 == Padded(mapped);
    if p.Node? {
      return if WellFormed(b64) then Ok(Spelled(DropPadding(b64))) else Ok(p.lenient(b64));
    }
    var found := Atob(b64);
    if found.None? {
      return Err(InvalidCharacter());
    }
    var bin := Binary(found.value);
    var out := new Byte[|bin|];
    for i := 0 to |bin|
      invariant out[..i] == found.value[..i]
    {
      out[i] := bin[i] as nat;
      assert out[..i + 1] == out[..i] + [out[i]];
    }
    assert out[..] == out[..|bin|] == found.value;
    return Ok(out[..]);
  }
}
