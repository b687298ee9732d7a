/**
 `Date.prototype.toISOString` (section 21.4.4.36 of ECMA-262) and the order of the texts it writes, which
 is what a database that keeps dates as text compares.
 */
module IsoDates {

  const DAY_MS: int := 24 * 60 * 60 * 1000

  /** The time values a `Date` can hold (section 21.4.1.1). */
  predicate InDateRange(ms: int)
  {
    -100000000 * DAY_MS <= ms <= 100000000 * DAY_MS
  }

  // ----- days and years (sections 21.4.1.3 to 21.4.1.8) -----

  function Day(ms: int): int
  {
    ms / DAY_MS
  }

  function TimeInDay(ms: int): nat
  {
    ms % DAY_MS
  }

  /** The day a year begins on. */
  function YearStart(y: int): int
  {
    365 * (y - 1970) + (y - 1969) / 4 - (y - 1901) / 100 + (y - 1601) / 400
  }

  predicate Leap(y: int)
  {
    (y % 4 == 0 && y % 100 != 0) || y % 400 == 0
  }

  lemma NextQuotient(x: int, d: int)
    requires d > 0
    ensures (x + 1) / d == x / d + if (x + 1) % d == 0 then 1 else 0
  {
    var q, r := x / d, x % d;
    assert x + 1 == q * d + (r + 1);
    if r + 1 == d {
      assert x + 1 == (q + 1) * d;
      QuotientIs(x + 1, d, q + 1, 0);
    } else {
      QuotientIs(x + 1, d, q, r + 1);
    }
  }

  lemma QuotientIs(x: int, d: int, q: int, r: int)
    requires d > 0 && x == q * d + r && 0 <= r < d
    ensures x / d == q && x % d == r
  {
    var p := x / d - q;
    assert x == (x / d) * d + x % d;
    assert p * d == r - x % d;
    assert (p > 0 ==> p * d >= d) && (p < 0 ==> p * d <= -d);
  }

  lemma YearLength(y: int)
    ensures YearStart(y + 1) - YearStart(y) == if Leap(y) then 366 else 365
  {
    NextQuotient(y - 1969, 4);
    NextQuotient(y - 1901, 100);
    NextQuotient(y - 1601, 400);
    assert (y - 1968) % 4 == y % 4 && (y - 1900) % 100 == y % 100 && (y - 1600) % 400 == y % 400;
  }

  lemma {:induction false} YearsAscend(y: int, z: int)
    requires y <= z
    ensures YearStart(y) + 365 * (z - y) <= YearStart(z)
    decreases z - y
  {
    hide YearStart, Leap;
    if y < z {
      YearLength(y);
      YearsAscend(y + 1, z);
    }
  }

  function Distance(d: int, y: int): nat
  {
    if d < YearStart(y) then YearStart(y) - d else if d >= YearStart(y + 1) then d - YearStart(y + 1) + 1 else 0
  }

  lemma Approaches(d: int, y: int)
    ensures d < YearStart(y) ==> Distance(d, y - 1) < Distance(d, y)
    ensures d >= YearStart(y + 1) ==> Distance(d, y + 1) < Distance(d, y)
  {
    YearLength(y - 1);
    YearLength(y);
    YearLength(y + 1);
    hide YearStart, Leap;
  }

  /** The year a day lies in, looked for from `y` on. */
  function YearFrom(d: int, y: int): (r: int)
    ensures YearStart(r) <= d < YearStart(r + 1)
    decreases Distance(d, y)
  {
    Approaches(d, y);
    if d < YearStart(y) then YearFrom(d, y - 1)
    else if d >= YearStart(y + 1) then YearFrom(d, y + 1)
    else y
  }

  function Year(ms: int): int
  {
    YearFrom(Day(ms), 1970)
  }

  lemma YearIs(ms: int, y: int)
    ensures Year(ms) >= y <==> Day(ms) >= YearStart(y)
  {
    hide YearStart, Day;
    var z := Year(ms);
    if z >= y { YearsAscend(y, z); } else { YearsAscend(z + 1, y); }
  }

  // ----- months -----

  /** Days before a month of a year. */
  function MonthStart(leap: bool, m: nat): nat
    requires m <= 12
  {
    var extra := if leap && m >= 2 then 1 else 0;
    [0, 31, 59, 90, 120, 151, 181, 212, 243, 273, 304, 334, 365][m] + extra
  }

  /** The month, from 0, that a day of the year lies in, looked for from `m` down. */
  function MonthFrom(leap: bool, d: nat, m: nat): (r: nat)
    requires m < 12
    ensures r <= m && MonthStart(leap, r) <= d
    ensures r < m ==> d < MonthStart(leap, r + 1)
  {
    if m == 0 || MonthStart(leap, m) <= d then m else MonthFrom(leap, d, m - 1)
  }

  function DayInYear(ms: int): (d: nat)
    ensures d < 366
  {
    YearLength(Year(ms));
    Day(ms) - YearStart(Year(ms))
  }

  function Month(ms: int): (m: nat)
    ensures m < 12 && MonthStart(Leap(Year(ms)), m) <= DayInYear(ms) < MonthStart(Leap(Year(ms)), m) + 31
  {
    YearLength(Year(ms));
    MonthsAreShort(Leap(Year(ms)), DayInYear(ms));
    MonthFrom(Leap(Year(ms)), DayInYear(ms), 11)
  }

  lemma MonthsAreShort(leap: bool, d: nat)
    requires d < if leap then 366 else 365
    ensures d < MonthStart(leap, MonthFrom(leap, d, 11)) + 31
  {
    var m := MonthFrom(leap, d, 11);
    assert m < 11 ==> MonthStart(leap, m + 1) <= MonthStart(leap, m) + 31;
  }

  function DayInMonth(ms: int): (d: nat)
    ensures d < 31
  {
    DayInYear(ms) - MonthStart(Leap(Year(ms)), Month(ms))
  }

  // ----- the text -----

  /** A number with at least `n` digits, of which the lowest `n` are written. */
  function Pad(n: nat, v: nat): (s: string)
    ensures |s| == n
  {
    if n == 0 then "" else Pad(n - 1, v / 10) + [Digit(v % 10)]
  }

  function Digit(d: nat): char
    requires d < 10
  {
    ('0' as int + d) as char
  }

  function Power10(n: nat): nat
  {
    if n == 0 then 1 else 10 * Power10(n - 1)
  }

  datatype Field = Field(sep: char, width: nat, value: nat)

  /** What follows the year, each number after its separator. */
  function Fields(ms: int): seq<Field>
  {
    var t := TimeInDay(ms);
    [Field('-', 2, Month(ms) + 1), Field('-', 2, DayInMonth(ms) + 1), Field('T', 2, t / 3600000),
     Field(':', 2, t / 60000 % 60), Field(':', 2, t / 1000 % 60), Field('.', 3, t % 1000)]
  }

  function Print(fs: seq<Field>): string
  {
    if fs == [] then "Z" else [fs[0].sep] + Pad(fs[0].width, fs[0].value) + Print(fs[1..])
  }

  /** Four digits for the years 0 to 9999, a sign and six digits for every other. */
  function YearText(y: int): string
  {
    if 0 <= y <= 9999 then Pad(4, y) else if y < 0 then "-" + Pad(6, -y) else "+" + Pad(6, y)
  }

  function IsoText(ms: int): string
  {
    YearText(Year(ms)) + Print(Fields(ms))
  }

  lemma PrintsFirst(f: Field, fs: seq<Field>)
    ensures Print([f] + fs) == [f.sep] + Pad(f.width, f.value) + Print(fs)
  {
    assert ([f] + fs)[1..] == fs;
    hide Pad;
  }

  /** The text is the year and the other numbers between their signs. */
  lemma TextIs(ms: int)
    ensures var t := TimeInDay(ms);
      IsoText(ms) == YearText(Year(ms))
        + (['-'] + Pad(2, Month(ms) + 1) + (['-'] + Pad(2, DayInMonth(ms) + 1)
        + (['T'] + Pad(2, t / 3600000) + ([':'] + Pad(2, t / 60000 % 60)
        + ([':'] + Pad(2, t / 1000 % 60) + (['.'] + Pad(3, t % 1000) + "Z"))))))
  {
    hide Year, Month, DayInMonth, TimeInDay, Pad, YearText, Print;
    var t := TimeInDay(ms);
    var (a, b, c) := (Field('-', 2, Month(ms) + 1), Field('-', 2, DayInMonth(ms) + 1), Field('T', 2, t / 3600000));
    var (d, e, f) := (Field(':', 2, t / 60000 % 60), Field(':', 2, t / 1000 % 60), Field('.', 3, t % 1000));
    assert Fields(ms) == [a] + ([b] + ([c] + ([d] + ([e] + ([f] + [])))));
    hide Fields;
    PrintsFirst(f, []);
    PrintsFirst(e, [f] + []);
    PrintsFirst(d, [e] + ([f] + []));
    PrintsFirst(c, [d] + ([e] + ([f] + [])));
    PrintsFirst(b, [c] + ([d] + ([e] + ([f] + []))));
    PrintsFirst(a, [b] + ([c] + ([d] + ([e] + ([f] + [])))));
    PrintsEnd();
  }

  lemma PrintsEnd()
    ensures Print([]) == "Z"
  {
  }

  // ----- the order of texts -----

  /** Byte by byte, as `memcmp` compares; these texts are ASCII. */
  predicate TextBefore(a: string, b: string)
  {
    b != "" && (a == "" || a[0] < b[0] || (a[0] == b[0] && TextBefore(a[1..], b[1..])))
  }

  lemma {:induction false} BeforeSelf(a: string)
    ensures !TextBefore(a, a)
  {
    if a != "" { BeforeSelf(a[1..]); }
  }

  /** Of two texts in parts of equal length the first parts that differ decide. */
  lemma {:induction false} BeforeByParts(a: string, b: string, c: string, d: string)
    requires |a| == |c|
    ensures TextBefore(a + b, c + d) <==> TextBefore(a, c) || (a == c && TextBefore(b, d))
  {
    if a == "" {
      assert a + b == b && c + d == d;
    } else {
      BeforeByParts(a[1..], b, c[1..], d);
      assert (a + b)[1..] == a[1..] + b && (c + d)[1..] == c[1..] + d;
      assert a == [a[0]] + a[1..] && c == [c[0]] + c[1..];
    }
  }

  lemma OneDigit(d: nat, e: nat)
    requires d < 10 && e < 10
    ensures TextBefore([Digit(d)], [Digit(e)]) <==> d < e
    ensures Digit(d) == Digit(e) <==> d == e
  {
  }

  /** Numbers padded to one width compare as numbers. */
  lemma {:induction false} PadOrder(n: nat, v: nat, w: nat)
    requires v < Power10(n) && w < Power10(n)
    ensures TextBefore(Pad(n, v), Pad(n, w)) <==> v < w
    ensures Pad(n, v) == Pad(n, w) <==> v == w
  {
    if n > 0 {
      PadOrder(n - 1, v / 10, w / 10);
      OneDigit(v % 10, w % 10);
      var a, b := Pad(n - 1, v / 10), Pad(n - 1, w / 10);
      hide TextBefore, Digit;
      BeforeByParts(a, [Digit(v % 10)], b, [Digit(w % 10)]);
      assert Pad(n, v)[..n - 1] == a && Pad(n, w)[..n - 1] == b;
      assert Pad(n, v)[n - 1] == Digit(v % 10) && Pad(n, w)[n - 1] == Digit(w % 10);
    }
  }

  /** The first value that differs decides. */
  predicate Lower(fs: seq<Field>, gs: seq<Field>)
  {
    fs != [] && gs != [] && (fs[0].value < gs[0].value || (fs[0].value == gs[0].value && Lower(fs[1..], gs[1..])))
  }

  predicate SameForm(fs: seq<Field>, gs: seq<Field>)
  {
    |fs| == |gs| && forall i :: 0 <= i < |fs| ==>
      fs[i].sep == gs[i].sep && fs[i].width == gs[i].width
      && fs[i].value < Power10(fs[i].width) && gs[i].value < Power10(gs[i].width)
  }

  lemma {:induction false} PrintOrder(fs: seq<Field>, gs: seq<Field>)
    requires SameForm(fs, gs)
    ensures TextBefore(Print(fs), Print(gs)) <==> Lower(fs, gs)
  {
    if fs == [] {
      BeforeSelf("Z");
    } else {
      PrintOrder(fs[1..], gs[1..]);
      var f, g := fs[0], gs[0];
      PadOrder(f.width, f.value, g.value);
      assert [f.sep] + Pad(f.width, f.value) + Print(fs[1..]) == [f.sep] + (Pad(f.width, f.value) + Print(fs[1..]));
      assert [g.sep] + Pad(g.width, g.value) + Print(gs[1..]) == [g.sep] + (Pad(g.width, g.value) + Print(gs[1..]));
      BeforeByParts([f.sep], Pad(f.width, f.value) + Print(fs[1..]), [g.sep], Pad(g.width, g.value) + Print(gs[1..]));
      BeforeByParts(Pad(f.width, f.value), Print(fs[1..]), Pad(g.width, g.value), Print(gs[1..]));
      BeforeSelf([f.sep]);
      hide Pad, TextBefore;
    }
  }

  // ----- time order, number by number -----

  lemma ByQuotient(x: int, y: int, d: int)
    requires d > 0
    ensures x < y <==> x / d < y / d || (x / d == y / d && x % d < y % d)
  {
    assert x == (x / d) * d + x % d && y == (y / d) * d + y % d;
    var p := y / d - x / d;
    assert (p > 0 ==> p * d >= d) && (p < 0 ==> p * d <= -d);
  }

  lemma ClockFields(t: nat, u: nat)
    requires t < DAY_MS && u < DAY_MS
    ensures t < u <==> Lower(
      [Field('T', 2, t / 3600000), Field(':', 2, t / 60000 % 60),
       Field(':', 2, t / 1000 % 60), Field('.', 3, t % 1000)],
      [Field('T', 2, u / 3600000), Field(':', 2, u / 60000 % 60),
       Field(':', 2, u / 1000 % 60), Field('.', 3, u % 1000)])
  {
    ByQuotient(t, u, 1000);
    ByQuotient(t / 1000, u / 1000, 60);
    ByQuotient(t / 60000, u / 60000, 60);
    assert t / 1000 / 60 == t / 60000 && u / 1000 / 60 == u / 60000;
    assert t / 60000 / 60 == t / 3600000 && u / 60000 / 60 == u / 3600000;
    var fs := [Field('T', 2, t / 3600000), Field(':', 2, t / 60000 % 60),
               Field(':', 2, t / 1000 % 60), Field('.', 3, t % 1000)];
    var gs := [Field('T', 2, u / 3600000), Field(':', 2, u / 60000 % 60),
               Field(':', 2, u / 1000 % 60), Field('.', 3, u % 1000)];
    LowerFirst(fs, gs);
    LowerFirst(fs[1..], gs[1..]);
    LowerFirst(fs[2..], gs[2..]);
    LowerFirst(fs[3..], gs[3..]);
    assert fs[1..][1..] == fs[2..] && fs[2..][1..] == fs[3..] && gs[1..][1..] == gs[2..] && gs[2..][1..] == gs[3..];
    assert fs[3..][1..] == [];
    hide Lower;
  }

  lemma LowerFirst(fs: seq<Field>, gs: seq<Field>)
    requires fs != [] && gs != []
    ensures Lower(fs, gs) <==> fs[0].value < gs[0].value || (fs[0].value == gs[0].value && Lower(fs[1..], gs[1..]))
    ensures |fs| == 1 ==> !Lower(fs[1..], gs[1..])
  {
  }

  lemma MonthsAscend(leap: bool, m: nat, n: nat)
    requires m <= n <= 12
    ensures MonthStart(leap, m) <= MonthStart(leap, n)
  {
  }

  lemma MonthOrder(leap: bool, d: nat, e: nat)
    requires d < 366 && e < 366
    ensures var m, n := MonthFrom(leap, d, 11), MonthFrom(leap, e, 11);
      d < e <==> m < n || (m == n && d - MonthStart(leap, m) < e - MonthStart(leap, n))
  {
    hide MonthStart;
    var m, n := MonthFrom(leap, d, 11), MonthFrom(leap, e, 11);
    if m < n { MonthsAscend(leap, m + 1, n); }
    if n < m { MonthsAscend(leap, n + 1, m); }
  }

  /** In one year the fields compare as the times do. */
  lemma FieldsOrder(a: int, b: int)
    requires Year(a) == Year(b)
    ensures a < b <==> Lower(Fields(a), Fields(b))
  {
    hide Year, YearStart, MonthStart, MonthFrom;
    ByQuotient(a, b, DAY_MS);
    MonthOrder(Leap(Year(a)), DayInYear(a), DayInYear(b));
    ClockFields(TimeInDay(a), TimeInDay(b));
    var fs, gs := Fields(a), Fields(b);
    LowerFirst(fs, gs);
    LowerFirst(fs[1..], gs[1..]);
    assert fs[1..][1..] == fs[2..] && gs[1..][1..] == gs[2..];
    hide Lower, Month, DayInMonth, DayInYear;
  }

  lemma FieldsForm(a: int, b: int)
    ensures SameForm(Fields(a), Fields(b))
  {
    hide Month, DayInMonth;
    assert Power10(2) == 100 && Power10(3) == 1000;
    hide Power10;
  }

  lemma DigitsFit()
    ensures Power10(4) == 10000 && Power10(6) == 1000000
  {
    assert Power10(2) == 100;
  }

  lemma SixDigits(ms: int)
    requires InDateRange(ms)
    ensures -1000000 < Year(ms) < 1000000
  {
    YearIs(ms, 1000000);
    YearIs(ms, -999999);
    hide Year;
  }

  // ----- which pairs the texts put in order -----

  /** From year 10000 on. */
  predicate FarFuture(ms: int)
  {
    ms >= 253402300800000
  }

  /** Before year 0. */
  predicate FarPast(ms: int)
  {
    ms < -62167219200000
  }

  lemma Eras(ms: int)
    ensures FarFuture(ms) <==> Year(ms) > 9999
    ensures FarPast(ms) <==> Year(ms) < 0
  {
    YearIs(ms, 10000);
    YearIs(ms, 0);
    hide Year;
  }

  /**
   The pairs whose texts come in the wrong order: a year with a plus sign beside one without, as the sign
   sorts before every digit, and two different years with a minus sign, whose digits count down.
   */
  predicate Missorted(a: int, b: int)
  {
    FarFuture(a) != FarFuture(b) || (FarPast(a) && FarPast(b) && Year(a) != Year(b))
  }

  lemma YearTextOrder(y: int, z: int)
    requires -1000000 < y < 1000000 && -1000000 < z < 1000000 && y != z
    ensures |YearText(y)| == |YearText(z)| ==> YearText(y) != YearText(z)
    ensures |YearText(y)| == |YearText(z)| ==> (TextBefore(YearText(y), YearText(z)) <==>
      if (y > 9999) != (z > 9999) || (y < 0 && z < 0) then z < y else y < z)
  {
    DigitsFit();
    if 0 <= y <= 9999 && 0 <= z <= 9999 {
      PadOrder(4, y, z);
    } else if (y < 0 || y > 9999) && (z < 0 || z > 9999) {
      var v, w := if y < 0 then -y else y, if z < 0 then -z else z;
      PadOrder(6, v, w);
      var c, d := if y < 0 then "-" else "+", if z < 0 then "-" else "+";
      BeforeByParts(c, Pad(6, v), d, Pad(6, w));
      assert YearText(y)[0] == c[0] && YearText(z)[0] == d[0];
      assert YearText(y)[1..] == Pad(6, v) && YearText(z)[1..] == Pad(6, w);
    }
  }

  lemma {:induction false} PadStartsWithDigit(n: nat, v: nat)
    requires n > 0
    ensures Pad(n, v)[0] >= '0'
  {
    if n > 1 { PadStartsWithDigit(n - 1, v / 10); }
  }

  /** A sign sorts before a digit. */
  lemma SignFirst(y: int, s: string, z: int, t: string)
    requires (y < 0 || y > 9999) && 0 <= z <= 9999
    ensures TextBefore(YearText(y) + s, YearText(z) + t) && !TextBefore(YearText(z) + t, YearText(y) + s)
  {
    PadStartsWithDigit(4, z);
    var a, b := YearText(y) + s, YearText(z) + t;
    assert a[0] == '-' || a[0] == '+';
    assert b[0] == Pad(4, z)[0];
  }

  lemma YearsDecide(y: int, s: string, z: int, t: string)
    requires -1000000 < y < 1000000 && -1000000 < z < 1000000 && y != z
    ensures TextBefore(YearText(y) + s, YearText(z) + t) <==>
      if (y > 9999) != (z > 9999) || (y < 0 && z < 0) then z < y else y < z
  {
    if (y < 0 || y > 9999) && 0 <= z <= 9999 {
      SignFirst(y, s, z, t);
    } else if (z < 0 || z > 9999) && 0 <= y <= 9999 {
      SignFirst(z, t, y, s);
    } else {
      YearTextOrder(y, z);
      BeforeByParts(YearText(y), s, YearText(z), t);
    }
  }

  /**
   The texts of two dates are in time order exactly when the pair is not missorted, and then in the
   opposite order; so every date of the years 0 to 9999 sorts right beside every other of them.
   */
  lemma TextOrderIsTimeOrder(a: int, b: int)
    requires InDateRange(a) && InDateRange(b)
    ensures Missorted(a, b) ==> a != b
    ensures TextBefore(IsoText(a), IsoText(b)) <==> if Missorted(a, b) then b < a else a < b
  {
    hide Year, YearText, Print, Fields, TextBefore, FarFuture, FarPast;
    Eras(a);
    Eras(b);
    var y, z := Year(a), Year(b);
    if y == z {
      BeforeByParts(YearText(y), Print(Fields(a)), YearText(z), Print(Fields(b)));
      BeforeSelf(YearText(y));
      FieldsForm(a, b);
      PrintOrder(Fields(a), Fields(b));
      FieldsOrder(a, b);
    } else {
      SixDigits(a);
      SixDigits(b);
      YearsDecide(y, Print(Fields(a)), z, Print(Fields(b)));
      YearsAreTimes(a, b);
    }
  }

  lemma YearsAreTimes(a: int, b: int)
    ensures Year(a) < Year(b) ==> a < b
    ensures Year(b) < Year(a) ==> b < a
  {
    YearIs(a, Year(b));
    YearIs(b, Year(a));
    ByQuotient(a, b, DAY_MS);
    ByQuotient(b, a, DAY_MS);
    hide Year, YearStart;
  }
}
