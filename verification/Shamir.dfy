/** packages/sovereign-crypto/src/shamir.ts: tables, sharing and recovery. */
module Shamir {
  import opened Bits
  import opened Field
  import opened Powers
  import opened Polynomials
  import opened Interpolation
  import opened Base64Url
  import opened Results

  /** What the code throws, by name. */
  datatype Failure = LowThreshold | BadCount | EmptySecret | FewShares | BadShape | DuplicateIndexes | ZeroDivisor

  function Message(f: Failure): string
  {
    match f
    case LowThreshold => "threshold must be >= 2"
    case BadCount => "shareCount must satisfy threshold <= n <= 255"
    case EmptySecret => "empty secret"
    case FewShares => "need at least 2 shares"
    case BadShape => "invalid share set"
    case DuplicateIndexes => "duplicate share indexes"
    case ZeroDivisor => "GF div by zero"
  }

  datatype ShamirShare = ShamirShare(index: int, value: string)

  /** `random(bi, c)` is the byte drawn for coefficient `c` of secret byte `bi`. */
  type Randomness = (nat, nat) -> Byte

  // ----- what sharing produces -----

  function Coefficients(secret: Byte, threshold: nat, random: Randomness, bi: nat): (p: Poly)
    requires threshold >= 1
    ensures |p| == threshold && p[0] == secret
  {
    seq(threshold, c requires 0 <= c < threshold => if c == 0 then secret else random(bi, c))
  }

  function ShareBytes(secret: seq<Byte>, threshold: nat, random: Randomness, x: Byte): (v: seq<Byte>)
    requires threshold >= 1
    ensures |v| == |secret|
  {
    seq(|secret|, bi requires 0 <= bi < |secret| => Eval(Coefficients(secret[bi], threshold, random, bi), x))
  }

  function SplitOutcome(
      secret: seq<Byte>, threshold: int, shareCount: int, random: Randomness): Result<seq<ShamirShare>>
  {
    if threshold < 2 then Err(Message(LowThreshold))
    else if shareCount < threshold || shareCount > 255 then Err(Message(BadCount))
    else if secret == [] then Err(Message(EmptySecret))
    else Ok(seq(shareCount, i requires 0 <= i < shareCount =>
                  ShamirShare(i + 1, Encoded(ShareBytes(secret, threshold, random, i + 1)))))
  }

  // ----- what recovery computes -----

  datatype Point = Point(x: int, y: seq<Byte>)

  function DecodeShares(p: Platform, shares: seq<ShamirShare>): (r: Result<seq<Point>>)
    ensures r.Ok? ==> |r.value| == |shares| && forall i :: 0 <= i < |shares| ==>
      r.value[i].x == shares[i].index && Decoded(p, shares[i].value) == Ok(r.value[i].y)
    ensures r.Err? ==> exists i :: 0 <= i < |shares| && Decoded(p, shares[i].value).Err?
  {
    if shares == [] then Ok([])
    else
      var last := |shares| - 1;
      match DecodeShares(p, shares[..last])
      case Err(e) => Err(e)
      case Ok(points) =>
        match Decoded(p, shares[last].value)
        case Err(e) => Err(e)
        case Ok(y) => Ok(points + [Point(shares[last].index, y)])
  }

  predicate SameShape(points: seq<Point>, len: nat)
  {
    forall i :: 0 <= i < |points| ==> |points[i].y| == len && 1 <= points[i].x <= 255
  }

  function Indexes(points: seq<Point>, len: nat): (xs: seq<Byte>)
    requires SameShape(points, len)
    ensures |xs| == |points|
  {
    seq(|points|, i requires 0 <= i < |points| => points[i].x)
  }

  function Column(points: seq<Point>, len: nat, bi: nat): (ys: seq<Byte>)
    requires SameShape(points, len) && bi < len
    ensures |ys| == |points|
  {
    seq(|points|, i requires 0 <= i < |points| => points[i].y[bi])
  }

  ghost function Rebuilt(points: seq<Point>, len: nat): (secret: seq<Byte>)
    requires SameShape(points, len) && Distinct(Indexes(points, len))
    ensures |secret| == len
  {
    seq(len, bi requires 0 <= bi < len => Lagrange(Indexes(points, len), Column(points, len, bi), |points|))
  }

  ghost function CombineOutcome(p: Platform, shares: seq<ShamirShare>): Result<seq<Byte>>
  {
    if |shares| < 2 then Err(Message(FewShares))
    else
      match DecodeShares(p, shares)
      case Err(e) => Err(e)
      case Ok(points) =>
        var len := |points[0].y|;
        if !SameShape(points, len) then Err(Message(BadShape))
        else if !Distinct(Indexes(points, len)) then Err(Message(DuplicateIndexes))
        else Ok(Rebuilt(points, len))
  }

  // ----- what is refused -----

  /** Shared is a secret that is not empty, for 2 <= threshold <= shareCount <= 255; else the first fault is named. */
  lemma SplitMeans(secret: seq<Byte>, threshold: int, shareCount: int, random: Randomness)
    ensures var r := SplitOutcome(secret, threshold, shareCount, random);
      && (r.Ok? <==> 2 <= threshold <= shareCount <= 255 && secret != [])
      && (threshold < 2 ==> r == Err("threshold must be >= 2"))
      && (threshold >= 2 && !(threshold <= shareCount <= 255) ==>
        r == Err("shareCount must satisfy threshold <= n <= 255"))
      && (2 <= threshold <= shareCount <= 255 && secret == [] ==> r == Err("empty secret"))
      && (r.Ok? ==> |r.value| == shareCount && forall i :: 0 <= i < shareCount ==> r.value[i].index == i + 1)
  {
    hide ShareBytes, Encoded;
  }

  /** Share `i` is the first whose text does not decode. */
  predicate Garbled(p: Platform, shares: seq<ShamirShare>, i: int)
  {
    0 <= i < |shares| && Decoded(p, shares[i].value).Err? && forall j :: 0 <= j < i ==> Decoded(p, shares[j].value).Ok?
  }

  predicate Legible(p: Platform, shares: seq<ShamirShare>)
  {
    forall i :: 0 <= i < |shares| ==> Decoded(p, shares[i].value).Ok?
  }

  /** All texts decode to `len` bytes, and the indexes are those of a field element other than 0. */
  predicate Uniform(p: Platform, shares: seq<ShamirShare>, len: nat)
  {
    Legible(p, shares)
    && forall i :: 0 <= i < |shares| ==> |Decoded(p, shares[i].value).value| == len && 1 <= shares[i].index <= 255
  }

  predicate Different(shares: seq<ShamirShare>)
  {
    forall i, j :: 0 <= i < j < |shares| ==> shares[i].index != shares[j].index
  }

  lemma {:induction false} FirstGarbled(p: Platform, shares: seq<ShamirShare>)
    ensures match DecodeShares(p, shares)
      case Ok(_) => Legible(p, shares)
      case Err(e) => exists i :: Garbled(p, shares, i) && Decoded(p, shares[i].value) == Err(e)
  {
    hide Decoded;
    if shares != [] && DecodeShares(p, shares).Err? {
      var init := shares[..|shares| - 1];
      FirstGarbled(p, init);
      if DecodeShares(p, init).Err? {
        var i :| Garbled(p, init, i) && Decoded(p, init[i].value) == Err(DecodeShares(p, init).error);
        assert shares[i] == init[i];
        forall j | 0 <= j < i ensures Decoded(p, shares[j].value).Ok? { assert init[j] == shares[j]; }
        assert Garbled(p, shares, i);
      } else {
        forall j | 0 <= j < |init| ensures Decoded(p, shares[j].value).Ok? { assert init[j] == shares[j]; }
        assert Garbled(p, shares, |shares| - 1);
      }
    }
  }

  lemma PointsAreUniform(p: Platform, shares: seq<ShamirShare>, points: seq<Point>, len: nat)
    requires |points| == |shares| && forall i :: 0 <= i < |shares| ==>
      points[i].x == shares[i].index && Decoded(p, shares[i].value) == Ok(points[i].y)
    ensures SameShape(points, len) <==> Uniform(p, shares, len)
    ensures SameShape(points, len) ==> (Distinct(Indexes(points, len)) <==> Different(shares))
  {
    hide Decoded;
    if SameShape(points, len) {
      var xs := Indexes(points, len);
      assert forall i :: 0 <= i < |shares| ==> xs[i] == shares[i].index;
    }
  }

  /**
   Shares are combined exactly if there are two at least, of texts that decode to equally many bytes, with
   different indexes from 1 to 255; of several faults the first in this order is named.
   */
  lemma CombineMeans(p: Platform, shares: seq<ShamirShare>)
    ensures var r := CombineOutcome(p, shares);
      && (|shares| < 2 ==> r == Err("need at least 2 shares"))
      && (forall i :: |shares| >= 2 && Garbled(p, shares, i) ==> r == Err(Decoded(p, shares[i].value).error))
      && (|shares| >= 2 && Legible(p, shares) && (forall len :: !Uniform(p, shares, len)) ==>
        r == Err("invalid share set"))
      && (forall len :: |shares| >= 2 && Uniform(p, shares, len) ==>
        if Different(shares) then r.Ok? && |r.value| == len else r == Err("duplicate share indexes"))
  {
    hide Decoded, Lagrange, Uniform, SameShape, Distinct, Different, Indexes;
    if |shares| >= 2 {
      FirstGarbled(p, shares);
      if DecodeShares(p, shares).Ok? {
        var points := DecodeShares(p, shares).value;
        forall len: nat ensures SameShape(points, len) <==> Uniform(p, shares, len) {
          PointsAreUniform(p, shares, points, len);
        }
        PointsAreUniform(p, shares, points, |points[0].y|);
        forall len: nat | Uniform(p, shares, len) ensures len == |points[0].y| { UniformIsOne(p, shares, points, len); }
      } else {
        var i :| Garbled(p, shares, i);
        forall len: nat ensures !Uniform(p, shares, len) { GarbledIsNot(p, shares, i, len); }
      }
    }
  }

  lemma GarbledIsNot(p: Platform, shares: seq<ShamirShare>, i: int, len: nat)
    requires Garbled(p, shares, i)
    ensures !Uniform(p, shares, len)
  {
    hide Decoded;
  }

  lemma UniformIsOne(p: Platform, shares: seq<ShamirShare>, points: seq<Point>, len: nat)
    requires |points| == |shares| > 0 && Uniform(p, shares, len) && Decoded(p, shares[0].value) == Ok(points[0].y)
    ensures len == |points[0].y|
  {
    hide Decoded;
  }

  // ----- the two promises -----

  ghost predicate Chosen(picks: seq<nat>, n: nat)
  {
    (forall k :: 0 <= k < |picks| ==> picks[k] < n) &&
    (forall k, l :: 0 <= k < l < |picks| ==> picks[k] != picks[l])
  }

  function Pick(shares: seq<ShamirShare>, picks: seq<nat>): (s: seq<ShamirShare>)
    requires forall k :: 0 <= k < |picks| ==> picks[k] < |shares|
    ensures |s| == |picks| && forall k :: 0 <= k < |picks| ==> s[k] == shares[picks[k]]
  {
    seq(|picks|, k requires 0 <= k < |picks| => shares[picks[k]])
  }

  lemma PickedPoints(p: Platform, secret: seq<Byte>, threshold: nat, n: nat, random: Randomness, picks: seq<nat>)
    requires secret != [] && 2 <= threshold <= n <= 255 && Chosen(picks, n)
    ensures var split := SplitOutcome(secret, threshold, n, random);
      split.Ok? && |split.value| == n &&
      var points := DecodeShares(p, Pick(split.value, picks));
      points.Ok? && |points.value| == |picks| &&
      forall k :: 0 <= k < |picks| ==>
        points.value[k] == Point(picks[k] + 1, ShareBytes(secret, threshold, random, picks[k] + 1))
  {
    hide Encoded, Decoded, ShareBytes, Message;
    var shares := SplitOutcome(secret, threshold, n, random).value;
    var picked := Pick(shares, picks);
    forall k | 0 <= k < |picks|
      ensures Decoded(p, picked[k].value) == Ok(ShareBytes(secret, threshold, random, picks[k] + 1))
    {
      DecodeEncode(p, ShareBytes(secret, threshold, random, picks[k] + 1));
    }
  }

  /** The points that the chosen shares decode to. */
  ghost predicate OnShares(points: seq<Point>, secret: seq<Byte>, threshold: nat, random: Randomness, picks: seq<nat>)
    requires threshold >= 1
  {
    |points| == |picks| && forall k :: 0 <= k < |picks| ==>
      picks[k] < 255 && points[k] == Point(picks[k] + 1, ShareBytes(secret, threshold, random, picks[k] + 1))
  }

  lemma SharesAreDistinct(points: seq<Point>, secret: seq<Byte>, threshold: nat, random: Randomness, picks: seq<nat>)
    requires threshold >= 1 && OnShares(points, secret, threshold, random, picks) && Chosen(picks, 255)
    ensures SameShape(points, |secret|) && Distinct(Indexes(points, |secret|))
  {
    hide Eval, Coefficients;
  }

  /** Through enough points on one byte's polynomial, interpolation at 0 finds the byte. */
  lemma ByteRecovers(
      points: seq<Point>, secret: seq<Byte>, threshold: nat, random: Randomness, picks: seq<nat>, bi: nat)
    requires threshold >= 1 && OnShares(points, secret, threshold, random, picks) && |picks| >= threshold
    requires bi < |secret|
    requires SameShape(points, |secret|) && Distinct(Indexes(points, |secret|))
    ensures Lagrange(Indexes(points, |secret|), Column(points, |secret|, bi), |points|) == secret[bi]
  {
    hide Lagrange, Eval, Coefficients;
    var poly := Coefficients(secret[bi], threshold, random, bi);
    var xs, ys := Indexes(points, |secret|), Column(points, |secret|, bi);
    assert Fits(poly, xs, ys);
    hide Fits, Distinct;
    LagrangeRecovers(poly, xs, ys);
  }

  /** Any `threshold` or more distinct shares, in any order, give back the secret. */
  lemma Recovery(p: Platform, secret: seq<Byte>, threshold: nat, n: nat, random: Randomness, picks: seq<nat>)
    requires secret != [] && 2 <= threshold <= n <= 255
    requires |picks| >= threshold && Chosen(picks, n)
    ensures SplitOutcome(secret, threshold, n, random).Ok? && |SplitOutcome(secret, threshold, n, random).value| == n
    ensures CombineOutcome(p, Pick(SplitOutcome(secret, threshold, n, random).value, picks)) == Ok(secret)
  {
    hide Lagrange, ShareBytes, SplitOutcome, Message, Pick;
    PickedPoints(p, secret, threshold, n, random, picks);
    var points := DecodeShares(p, Pick(SplitOutcome(secret, threshold, n, random).value, picks)).value;
    hide DecodeShares;
    SharesAreDistinct(points, secret, threshold, random, picks);
    hide SameShape, Distinct, Indexes, Column, Chosen;
    forall bi | 0 <= bi < |secret| ensures Rebuilt(points, |secret|)[bi] == secret[bi] {
      ByteRecovers(points, secret, threshold, random, picks, bi);
    }
    assert Rebuilt(points, |secret|) == secret;
    assert |points[0].y| == |secret|;
  }

  ghost function Explanation(secret: Byte, xs: seq<Byte>, ys: seq<Byte>): (c: Poly)
    requires |xs| == |ys| && Distinct(xs) && 0 !in xs
    ensures |c| == |xs| && Fits([secret] + c, xs, ys)
  {
    OnePointShort(secret, xs, ys);
    var c: Poly :| |c| == |xs| && Fits([secret] + c, xs, ys);
    c
  }

  ghost function SharesAt(
      secret: seq<Byte>, threshold: nat, random: Randomness, xs: seq<Byte>, bi: nat): (ys: seq<Byte>)
    requires threshold >= 1 && bi < |secret|
    ensures |ys| == |xs|
  {
    seq(|xs|, i requires 0 <= i < |xs| => Eval(Coefficients(secret[bi], threshold, random, bi), xs[i]))
  }

  ghost predicate SameShares(s: seq<Byte>, r: Randomness, t: seq<Byte>, q: Randomness, threshold: nat, xs: seq<Byte>)
    requires threshold >= 1
  {
    forall x :: x in xs ==> ShareBytes(s, threshold, r, x) == ShareBytes(t, threshold, q, x)
  }

  /** The random byte that makes `other` explain the shares of `secret`. */
  ghost function Redrawn(
      secret: seq<Byte>, other: seq<Byte>, threshold: nat, random: Randomness, xs: seq<Byte>, bi: nat, c: nat): Byte
    requires threshold >= 2 && |xs| == threshold - 1 && Distinct(xs) && 0 !in xs && |other| == |secret|
  {
    if bi < |secret| && 1 <= c < threshold
    then Explanation(other[bi], xs, SharesAt(secret, threshold, random, xs, bi))[c - 1]
    else 0
  }

  /** `threshold - 1` shares fit every other secret of the same length equally well. */
  lemma Secrecy(secret: seq<Byte>, other: seq<Byte>, threshold: nat, random: Randomness, xs: seq<Byte>)
    requires threshold >= 2 && |xs| == threshold - 1 && Distinct(xs) && 0 !in xs && |other| == |secret|
    ensures exists r: Randomness :: SameShares(other, r, secret, random, threshold, xs)
  {
    hide Eval;
    var r: Randomness := (bi, c) => Redrawn(secret, other, threshold, random, xs, bi, c);
    forall x | x in xs ensures ShareBytes(other, threshold, r, x) == ShareBytes(secret, threshold, random, x) {
      var i :| 0 <= i < |xs| && xs[i] == x;
      forall bi | 0 <= bi < |secret|
        ensures ShareBytes(other, threshold, r, x)[bi] == ShareBytes(secret, threshold, random, x)[bi]
      {
        var ys := SharesAt(secret, threshold, random, xs, bi);
        var c := Explanation(other[bi], xs, ys);
        assert Coefficients(other[bi], threshold, r, bi) == [other[bi]] + c;
        assert Eval([other[bi]] + c, xs[i]) == ys[i];
      }
    }
    assert SameShares(other, r, secret, random, threshold, xs);
  }

  /** And only one draw of the coefficients makes them fit. */
  lemma OneExplanation(secret: seq<Byte>, other: seq<Byte>, threshold: nat, random: Randomness, xs: seq<Byte>,
                       r: Randomness, q: Randomness, bi: nat, c: nat)
    requires threshold >= 2 && |xs| == threshold - 1 && Distinct(xs) && 0 !in xs && |other| == |secret|
    requires SameShares(other, r, secret, random, threshold, xs) && SameShares(other, q, secret, random, threshold, xs)
    requires bi < |secret| && 1 <= c < threshold
    ensures r(bi, c) == q(bi, c)
  {
    hide Eval;
    var ys := SharesAt(secret, threshold, random, xs, bi);
    var p, o := Coefficients(other[bi], threshold, r, bi), Coefficients(other[bi], threshold, q, bi);
    forall i | 0 <= i < |xs| ensures Eval(p, xs[i]) == ys[i] && Eval(o, xs[i]) == ys[i] {
      assert xs[i] in xs;
      assert ShareBytes(other, threshold, r, xs[i])[bi] == Eval(p, xs[i]);
      assert ShareBytes(other, threshold, q, xs[i])[bi] == Eval(o, xs[i]);
      assert ShareBytes(secret, threshold, random, xs[i])[bi] == ys[i];
    }
    assert p == [other[bi]] + p[1..] && o == [other[bi]] + o[1..];
    OnePointShort(other[bi], xs, ys);
    assert p[1..] == o[1..];
    assert p[1..][c - 1] == r(bi, c) && o[1..][c - 1] == q(bi, c);
  }

  // ----- the code -----

  lemma {:induction false} SizeTellsDistinct(xs: seq<Byte>)
    ensures |set i | 0 <= i < |xs| :: xs[i]| <= |xs|
    ensures |set i | 0 <= i < |xs| :: xs[i]| == |xs| <==> Distinct(xs)
  {
    var s := set i | 0 <= i < |xs| :: xs[i];
    if xs != [] {
      var init, last := xs[..|xs| - 1], xs[|xs| - 1];
      var t := set i | 0 <= i < |init| :: init[i];
      SizeTellsDistinct(init);
      assert s == t + {last} by {
        forall y | y in t ensures y in s { var i :| 0 <= i < |init| && init[i] == y; assert xs[i] == y; }
        assert xs[|xs| - 1] in s;
        forall y | y in s ensures y in t + {last} {
          var i :| 0 <= i < |xs| && xs[i] == y;
          if i < |init| { assert init[i] == y; }
        }
      }
      if last in t {
        var i :| 0 <= i < |init| && init[i] == last;
        assert s == t;
        assert xs[i] == xs[|xs| - 1];
      } else {
        assert Distinct(xs) <==> Distinct(init) by {
          forall i, j | 0 <= i < j < |xs| && Distinct(init) ensures xs[i] != xs[j] {
            assert xs[i] == init[i];
            if j < |init| { assert xs[j] == init[j]; } else { assert init[i] in t; }
          }
          forall i, j | 0 <= i < j < |init| && Distinct(xs)
            ensures init[i] != init[j]
          {
            assert xs[i] == init[i] && xs[j] == init[j];
          }
        }
      }
    }
  }

  lemma NewPower(i: nat)
    requires i < 255
    ensures Iter(i, 1) != 0 && forall k: nat :: k < i ==> Iter(k, 1) != Iter(i, 1)
  {
    hide Iter;
    PowersNonZero(i);
    forall k: nat | k < i ensures Iter(k, 1) != Iter(i, 1) { PowersDistinct(k, i); }
  }

  lemma NextPower(i: nat)
    ensures 2 * Iter(i, 1) >= 256 ==> Iter(i + 1, 1) == Xor(2 * Iter(i, 1), 0x11d)
    ensures 2 * Iter(i, 1) < 256 ==> Iter(i + 1, 1) == 2 * Iter(i, 1)
  {
    hide Iter, Xor;
    IterStep(i, 1);
  }

  /** `initTables`, on arrays of zeros. */
  method InitTables(LOG: array<int>, EXP: array<Byte>)
    requires LOG.Length == EXP.Length == 256 && LOG[0] == 0
    modifies LOG, EXP
    ensures forall k: nat :: k < 255 ==> EXP[k] == Iter(k, 1) && Iter(k, 1) != 0 && LOG[Iter(k, 1)] == k
    ensures EXP[255] == 1 && LOG[0] == 0
  {
    hide Iter, Xor, Double;
    IterStep(0, 1);
    var x: nat := 1;
    for i := 0 to 255
      invariant x < 256 && x == Iter(i, 1)
      invariant forall k: nat :: k < i ==> EXP[k] == Iter(k, 1)
      invariant forall k: nat :: k < i ==> Iter(k, 1) != 0 && LOG[Iter(k, 1)] == k
      invariant LOG[0] == 0
    {
      NewPower(i);
      EXP[i] := x;
      LOG[x] := i;
      NextPower(i);
      x := 2 * x;
      if x >= 256 {
        x := Xor(x, 0x11d);
      }
    }
    EXP[255] := EXP[0];
  }

  class Tables {
    const LOG: array<int>
    const EXP: array<Byte>

    ghost predicate Valid()
      reads LOG, EXP
    {
      LOG.Length == 256 && EXP.Length == 256 &&
      (forall k: nat :: k < 255 ==> EXP[k] == Iter(k, 1)) && EXP[255] == 1 &&
      LOG[0] == 0 && (forall x: Byte :: x != 0 ==> 0 <= LOG[x] < 255 && EXP[LOG[x]] == x)
    }

    constructor ()
      ensures Valid() && fresh(LOG) && fresh(EXP)
    {
      LOG := new int[256](_ => 0);
      EXP := new Byte[256](_ => 0);
      new;
      InitTables(LOG, EXP);
      forall b: Byte | b != 0 ensures 0 <= LOG[b] < 255 && EXP[LOG[b]] == b {
        assert LOG[Iter(Log(b), 1)] == Log(b);
      }
    }

    /** The tables are inverse bijections between 0..254 and 1..255. */
    lemma Bijection()
      requires Valid()
      ensures forall k: nat :: k < 255 ==> EXP[k] != 0 && LOG[EXP[k]] == k
      ensures forall x: Byte :: x != 0 ==> 0 <= LOG[x] < 255 && EXP[LOG[x]] == x
    {
      hide Iter;
      forall k: nat | k < 255 ensures EXP[k] != 0 && LOG[EXP[k]] == k {
        PowersNonZero(k);
        var l := LOG[EXP[k]];
        if k < l { PowersDistinct(k, l); } else if l < k { PowersDistinct(l, k); }
      }
    }

    function GfMul(a: Byte, b: Byte): (r: Byte)
      reads LOG, EXP
      requires Valid()
      ensures r == Times(a, b)
    {
      TimesZero(a); TimesZero(b);
      if a == 0 || b == 0 then 0
      else
        TimesOfPowers(LOG[a], LOG[b]);
        EXP[(LOG[a] + LOG[b]) % 255]
    }

    lemma Divides(a: Byte, b: Byte)
      requires Valid() && a != 0 && b != 0
      ensures Times(EXP[(LOG[a] - LOG[b] + 255) % 255], b) == a
    {
      hide Iter, Times;
      var i, j := LOG[a], LOG[b];
      QuotientOfPowers(i, j);
      var k: nat := (i - j + 255) % 255;
      assert EXP[i] == Iter(i, 1) && EXP[j] == Iter(j, 1) && EXP[k] == Iter(k, 1);
    }

    function GfDiv(a: Byte, b: Byte): (r: Result<Byte>)
      reads LOG, EXP
      requires Valid()
      ensures r.Err? <==> b == 0
      ensures r.Ok? ==> Times(r.value, b) == a
    {
      TimesZero(b);
      if b == 0 then Err(Message(ZeroDivisor))
      else if a == 0 then Ok(0)
      else
        Divides(a, b);
        Ok(EXP[(LOG[a] - LOG[b] + 255) % 255])
    }

    method EvalPoly(coeffs: array<Byte>, x: Byte) returns (y: Byte)
      requires Valid()
      ensures y == Eval(coeffs[..], x)
    {
      hide Times;
      y := 0;
      var i := coeffs.Length;
      while i > 0
        invariant 0 <= i <= coeffs.Length
        invariant y == Eval(coeffs[i..], x)
      {
        i := i - 1;
        assert coeffs[i..][1..] == coeffs[i + 1..];
        y := Add(GfMul(y, x), coeffs[i]);
      }
      assert coeffs[0..] == coeffs[..];
    }

    /** The secret byte and fresh randomness above it. */
    method DrawCoefficients(secret: Byte, threshold: nat, random: Randomness, bi: nat) returns (coeffs: array<Byte>)
      requires threshold >= 1
      ensures fresh(coeffs) && coeffs[..] == Coefficients(secret, threshold, random, bi)
    {
      coeffs := new Byte[threshold](_ => 0);
      coeffs[0] := secret;
      for c := 1 to threshold
        invariant coeffs[0] == secret
        invariant forall k :: 1 <= k < c ==> coeffs[k] == random(bi, k)
      {
        coeffs[c] := random(bi, c);
      }
    }

    method SplitSecret(p: Platform, secret: seq<Byte>, threshold: int, shareCount: int, random: Randomness)
      returns (r: Result<seq<ShamirShare>>)
      requires Valid()
      ensures Valid() && r == SplitOutcome(secret, threshold, shareCount, random)
    {
      hide Eval, Times, Encoded, Message, Coefficients;
      if threshold < 2 { return Err(Message(LowThreshold)); }
      if shareCount < threshold || shareCount > 255 { return Err(Message(BadCount)); }
      if |secret| == 0 { return Err(Message(EmptySecret)); }
      var shares := new Byte[shareCount, |secret|]((_, _) => 0);
      for bi := 0 to |secret|
        invariant Valid()
        invariant forall k, l :: 0 <= k < shareCount && 0 <= l < bi ==>
          shares[k, l] == Eval(Coefficients(secret[l], threshold, random, l), k + 1)
      {
        var coeffs := DrawCoefficients(secret[bi], threshold, random, bi);
        for x := 1 to shareCount + 1
          invariant Valid() && coeffs[..] == Coefficients(secret[bi], threshold, random, bi)
          invariant forall k, l :: 0 <= k < shareCount && 0 <= l < bi ==>
            shares[k, l] == Eval(Coefficients(secret[l], threshold, random, l), k + 1)
          invariant forall k :: 0 <= k < x - 1 ==>
            shares[k, bi] == Eval(Coefficients(secret[bi], threshold, random, bi), k + 1)
        {
          var y := EvalPoly(coeffs, x);
          shares[x - 1, bi] := y;
        }
      }
      var out := EncodeRows(p, shares);
      assert out == SplitOutcome(secret, threshold, shareCount, random).value by {
        forall i | 0 <= i < shareCount ensures out[i] == SplitOutcome(secret, threshold, shareCount, random).value[i] {
          assert Row(shares, i) == ShareBytes(secret, threshold, random, i + 1);
        }
      }
      return Ok(out);
    }

    /** The loops over `i` and `j` for one byte of the secret; no division by zero is left to throw. */
    method InterpolateAtZero(xs: seq<Byte>, ys: seq<Byte>) returns (acc: Byte)
      requires Valid() && |xs| == |ys| && Distinct(xs)
      ensures acc == Lagrange(xs, ys, |xs|)
    {
      hide Times, Xor, Product;
      acc := 0;
      for i := 0 to |xs|
        invariant acc == Lagrange(xs, ys, i)
      {
        var num: Byte, den: Byte := 1, 1;
        ProductStart(0); ProductStart(xs[i]);
        for j := 0 to |xs|
          invariant num == Product(Seen(xs, i, j), 0) && den == Product(Seen(xs, i, j), xs[i])
        {
          if i == j {
            assert Seen(xs, i, j + 1) == Seen(xs, i, j);
            continue;
          }
          ProductStep(xs, i, j, 0);
          ProductStep(xs, i, j, xs[i]);
          AddLaws(xs[j], 0, 0);
          num := GfMul(num, xs[j]);
          den := GfMul(den, Add(xs[i], xs[j]));
        }
        assert Seen(xs, i, |xs|) == Others(xs, i);
        OthersDiffer(xs, i);
        ProductIsZero(Others(xs, i), xs[i]);
        var q := GfDiv(num, den);
        TimesCancels(q.value, Div(num, den), den);
        acc := Add(acc, GfMul(ys[i], q.value));
      }
    }

    /** The loop over the bytes of the secret. */
    method Rebuild(points: seq<Point>, len: nat) returns (secret: seq<Byte>)
      requires Valid() && SameShape(points, len) && Distinct(Indexes(points, len))
      ensures secret == Rebuilt(points, len)
    {
      hide Lagrange;
      var out := new Byte[len](_ => 0);
      for bi := 0 to len
        invariant Valid()
        invariant forall k :: 0 <= k < bi ==> out[k] == Lagrange(Indexes(points, len), Column(points, len, k), |points|)
      {
        var acc := InterpolateAtZero(Indexes(points, len), Column(points, len, bi));
        out[bi] := acc;
      }
      assert out[..] == Rebuilt(points, len);
      return out[..];
    }

    method CombineShares(p: Platform, shares: seq<ShamirShare>) returns (r: Result<seq<Byte>>)
      requires Valid()
      ensures r == CombineOutcome(p, shares)
    {
      hide Rebuilt, Decoded, Message, Column;
      if |shares| < 2 { return Err(Message(FewShares)); }
      var points: seq<Point> := [];
      for i := 0 to |shares|
        invariant DecodeShares(p, shares[..i]) == Ok(points)
      {
        assert shares[..i + 1][..i] == shares[..i];
        var y := Base64UrlToBytes(p, shares[i].value);
        if y.Err? {
          FirstErrorStays(p, shares, i + 1);
          return Err(y.error);
        }
        points := points + [Point(shares[i].index, y.value)];
      }
      assert shares[..|shares|] == shares;
      hide DecodeShares;
      var len := |points[0].y|;
      if !SameShape(points, len) { return Err(Message(BadShape)); }
      var xs := Indexes(points, len);
      SizeTellsDistinct(xs);
      if |set i | 0 <= i < |xs| :: xs[i]| != |xs| { return Err(Message(DuplicateIndexes)); }
      var secret := Rebuild(points, len);
      return Ok(secret);
    }
  }

  function Seen(xs: seq<Byte>, i: nat, j: nat): seq<Byte>
    requires i < |xs| && j <= |xs|
  {
    if j <= i then xs[..j] else xs[..i] + xs[i + 1..j]
  }

  lemma ProductStart(x: Byte)
    ensures Product([], x) == 1
  {
  }

  lemma ProductStep(xs: seq<Byte>, i: nat, j: nat, x: Byte)
    requires i < |xs| && j < |xs| && i != j
    ensures Product(Seen(xs, i, j + 1), x) == Times(Product(Seen(xs, i, j), x), Add(x, xs[j]))
  {
    hide Times, Xor;
    var s := Seen(xs, i, j + 1);
    assert s == Seen(xs, i, j) + [xs[j]];
    assert s[..|s| - 1] == Seen(xs, i, j);
  }

  lemma {:induction false} FirstErrorStays(p: Platform, shares: seq<ShamirShare>, k: nat)
    requires k <= |shares| && DecodeShares(p, shares[..k]).Err?
    ensures DecodeShares(p, shares) == DecodeShares(p, shares[..k])
    decreases |shares| - k
  {
    hide Decoded;
    if k < |shares| {
      assert shares[..k + 1][..k] == shares[..k];
      FirstErrorStays(p, shares, k + 1);
    } else {
      assert shares[..k] == shares;
    }
  }

  function Row(a: array2<Byte>, i: nat): (row: seq<Byte>)
    reads a
    requires i < a.Length0
    ensures |row| == a.Length1 && forall l :: 0 <= l < a.Length1 ==> row[l] == a[i, l]
  {
    seq(a.Length1, l requires 0 <= l < a.Length1 reads a => a[i, l])
  }

  /** The closing `shares.map`. */
  method EncodeRows(p: Platform, shares: array2<Byte>) returns (out: seq<ShamirShare>)
    ensures |out| == shares.Length0
    ensures forall k :: 0 <= k < |out| ==> out[k] == ShamirShare(k + 1, Encoded(Row(shares, k)))
  {
    hide Encoded;
    out := [];
    for i := 0 to shares.Length0
      invariant |out| == i
      invariant forall k :: 0 <= k < i ==> out[k] == ShamirShare(k + 1, Encoded(Row(shares, k)))
    {
      var value := BytesToBase64Url(p, Row(shares, i));
      out := out + [ShamirShare(i + 1, value)];
    }
  }
}
