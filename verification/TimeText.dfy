/** Times as text: the calendar date and time of day, and the fraction of a second. Times are whole
    numbers of nanoseconds since 1970. */
module TimeText {
  import opened Sequences
  import opened Decimals

  const BILLION := 1_000_000_000

  function Billions(n: int): int {
    1_000_000_000 * n
  }

  lemma BillionsAdd(a: int, b: int)
    ensures Billions(a + b) == Billions(a) + Billions(b)
    ensures Billions(a) == Billions(b) <==> a == b
  {
  }

  // The calendar.

  predicate Leap(y: int) {
    y % 4 == 0 && (y % 100 != 0 || y % 400 == 0)
  }

  function YearLength(y: int): nat {
    if Leap(y) then 366 else 365
  }

  function MonthLength(y: int, m: nat): nat {
    if m == 2 then (if Leap(y) then 29 else 28)
    else if m == 4 || m == 6 || m == 9 || m == 11 then 30
    else 31
  }

  /** The days from the start of 1970 to the start of year `y`, by the formula of section 4.16 of
      POSIX.1-2017. */
  function DaysToYear(y: int): int {
    (y - 1970) * 365 + Fourths(y) - Hundredths(y) + FourHundredths(y)
  }

  function Fourths(y: int): int {
    (y - 1969) / 4
  }

  function Hundredths(y: int): int {
    (y - 1901) / 100
  }

  function FourHundredths(y: int): int {
    (y - 1601) / 400
  }

  lemma NextFourth(y: int)
    ensures Fourths(y + 1) - Fourths(y) == if y % 4 == 0 then 1 else 0
  {
  }

  lemma NextHundredth(y: int)
    ensures Hundredths(y + 1) - Hundredths(y) == if y % 100 == 0 then 1 else 0
  {
  }

  lemma NextFourHundredth(y: int)
    ensures FourHundredths(y + 1) - FourHundredths(y) == if y % 400 == 0 then 1 else 0
  {
  }

  lemma Divides(y: int)
    ensures y % 400 == 0 ==> y % 100 == 0
    ensures y % 100 == 0 ==> y % 4 == 0
  {
  }

  lemma YearAdds(y: int)
    requires y >= 1970
    ensures DaysToYear(y + 1) == DaysToYear(y) + YearLength(y)
  {
    NextFourth(y);
    NextHundredth(y);
    NextFourHundredth(y);
    Divides(y);
    hide Fourths, Hundredths, FourHundredths;
  }

  lemma Epoch()
    ensures DaysToYear(1970) == 0
  {
  }

  lemma {:induction false} YearsGrow(x: int, y: int)
    requires 1970 <= x < y
    ensures DaysToYear(x) + YearLength(x) <= DaysToYear(y)
    decreases y
  {
    YearAdds(x);
    if x < y - 1 {
      YearsGrow(x, y - 1);
      YearAdds(y - 1);
    }
    hide DaysToYear;
  }

  function DaysToMonth(y: int, m: nat): nat
    requires m >= 1
  {
    if m == 1 then 0 else DaysToMonth(y, m - 1) + MonthLength(y, m - 1)
  }

  lemma YearOfMonths(y: int)
    ensures DaysToMonth(y, 13) == YearLength(y)
  {
    assert DaysToMonth(y, 2) == 31;
    assert DaysToMonth(y, 3) == 31 + MonthLength(y, 2);
    assert DaysToMonth(y, 4) == 62 + MonthLength(y, 2);
    assert DaysToMonth(y, 5) == 92 + MonthLength(y, 2);
    assert DaysToMonth(y, 6) == 123 + MonthLength(y, 2);
    assert DaysToMonth(y, 7) == 153 + MonthLength(y, 2);
    assert DaysToMonth(y, 8) == 184 + MonthLength(y, 2);
    assert DaysToMonth(y, 9) == 215 + MonthLength(y, 2);
    assert DaysToMonth(y, 10) == 245 + MonthLength(y, 2);
    assert DaysToMonth(y, 11) == 276 + MonthLength(y, 2);
    assert DaysToMonth(y, 12) == 306 + MonthLength(y, 2);
  }

  lemma {:induction false} MonthsGrow(y: int, l: nat, m: nat)
    requires 1 <= l < m
    ensures DaysToMonth(y, l) + MonthLength(y, l) <= DaysToMonth(y, m)
  {
    if l < m - 1 {
      MonthsGrow(y, l, m - 1);
    }
  }

  /** The broken-down time of section 4.16, `day` counted from 1. */
  datatype Broken = Broken(year: nat, month: nat, day: nat, hour: nat, minute: nat, second: nat)

  /** Finding the year, starting from `y` with `d` days to go. */
  function YearFrom(d: nat, y: nat): (r: (nat, nat))
    decreases d
  {
    if d < YearLength(y) then (y, d) else YearFrom(d - YearLength(y), y + 1)
  }

  function MonthFrom(y: int, d: nat, m: nat): (r: (nat, nat))
    requires 1 <= m <= 12
    decreases 12 - m
  {
    if d < MonthLength(y, m) || m == 12 then (m, d) else MonthFrom(y, d - MonthLength(y, m), m + 1)
  }

  lemma {:induction false} YearFound(d: nat, y: nat)
    requires y >= 1970
    ensures var (z, r) := YearFrom(d, y);
            z >= y && r < YearLength(z) && DaysToYear(z) + r == DaysToYear(y) + d
    decreases d
  {
    if d >= YearLength(y) {
      YearAdds(y);
      YearFound(d - YearLength(y), y + 1);
      hide DaysToYear;
    }
  }

  lemma {:induction false} MonthFound(y: int, d: nat, m: nat)
    requires 1 <= m <= 12 && DaysToMonth(y, m) + d < YearLength(y)
    ensures var (k, r) := MonthFrom(y, d, m);
            1 <= k <= 12 && r < MonthLength(y, k) && DaysToMonth(y, k) + r == DaysToMonth(y, m) + d
    decreases 12 - m
  {
    YearOfMonths(y);
    if !(d < MonthLength(y, m) || m == 12) {
      MonthFound(y, d - MonthLength(y, m), m + 1);
    }
    assert m == 12 ==> DaysToMonth(y, 13) == DaysToMonth(y, 12) + MonthLength(y, 12);
  }

  function Clock(s: nat): (nat, nat, nat) {
    (s / 3600, s % 3600 / 60, s % 60)
  }

  /** Breaking down a time, as gmtime does. */
  function BreakDown(t: nat): Broken {
    var (y, d) := YearFrom(t / 86400, 1970);
    var (m, r) := MonthFrom(y, d, 1);
    var (h, mi, s) := Clock(t % 86400);
    Broken(y, m, r + 1, h, mi, s)
  }

  predicate IsTime(b: Broken) {
    && b.year >= 1970 && 1 <= b.month <= 12 && 1 <= b.day <= MonthLength(b.year, b.month)
    && b.hour < 24 && b.minute < 60 && b.second < 60
  }

  /** Putting it together again, as timegm does. */
  function Seconds(b: Broken): int
    requires b.month >= 1
  {
    (DaysToYear(b.year) + DaysToMonth(b.year, b.month) + b.day - 1) * 86400 + b.hour * 3600 + b.minute * 60 + b.second
  }

  lemma DayFound(d: nat)
    ensures var (y, r) := YearFrom(d, 1970);
            var (m, k) := MonthFrom(y, r, 1);
            y >= 1970 && 1 <= m <= 12 && k < MonthLength(y, m) && DaysToYear(y) + DaysToMonth(y, m) + k == d
  {
    Epoch();
    YearFound(d, 1970);
    var (y, r) := YearFrom(d, 1970);
    assert DaysToMonth(y, 1) == 0;
    MonthFound(y, r, 1);
    hide DaysToYear, DaysToMonth, YearFrom, MonthFrom, MonthLength, YearLength;
  }

  /** Breaking down and putting together undo each other. */
  lemma Together(t: nat)
    ensures IsTime(BreakDown(t)) && Seconds(BreakDown(t)) == t
  {
    DayFound(t / 86400);
    TimeOfDay(t % 86400);
    hide DaysToYear, DaysToMonth, YearFrom, MonthFrom, MonthLength, YearLength, Clock;
    var (y, r) := YearFrom(t / 86400, 1970);
    var (m, k) := MonthFrom(y, r, 1);
    var (h, mi, z) := Clock(t % 86400);
    var b := Broken(y, m, k + 1, h, mi, z);
    assert BreakDown(t) == b;
    assert IsTime(b);
    assert DaysToYear(b.year) + DaysToMonth(b.year, b.month) + b.day - 1 == t / 86400;
  }

  lemma TimeOfDay(s: nat)
    requires s < 86400
    ensures var (h, mi, z) := Clock(s); h < 24 && mi < 60 && z < 60 && s == h * 3600 + mi * 60 + z
  {
    assert s % 3600 % 60 == s % 60;
  }

  // Fractions of a second.

  /** The text of a fraction of `n` nanoseconds: nine significant digits without trailing zeros,
      with the character before the point left out. Below a ten-thousandth of a second it is in
      exponent form, and the character left out is the leading digit. */
  function Fraction(n: nat): string
    requires n < BILLION
  {
    if n == 0 then ""
    else if n >= 100_000 then Point(Strip(Digits(n, 9)))
    else
      var p := Width(n);
      var rest := Strip(Digits(n % Pow10(p - 1), p - 1));
      Exponential(rest, 10 - p)
  }

  function Exponential(rest: string, x: nat): string {
    Point(rest) + ("e-" + Digits(x, 2))
  }

  function Point(digits: string): string {
    if digits == "" then "" else "." + digits
  }

  function Width(n: nat): (p: nat)
    ensures p >= 1 && n < Pow10(p)
    ensures n > 0 ==> Pow10(p - 1) <= n
    ensures n < 100_000 ==> p <= 5
  {
    if n < 10 then assert Pow10(1) == 10 * Pow10(0); 1
    else
      var w := Width(n / 10);
      assert n < 100_000 ==> n / 10 < 10_000;
      assert Pow10(4) == 10_000 by { assert Pow10(2) == 100; assert Pow10(3) == 1000; }
      w + 1
  }

  function Until(s: string, c: char): (k: nat)
    ensures k <= |s|
  {
    if s == "" || s[0] == c then 0 else 1 + Until(s[1..], c)
  }

  /** Up to nine digits after a point, or nothing, in nanoseconds. */
  function Mantissa(s: string): Option<nat> {
    if s == "" then Some(0)
    else if s[0] != '.' || !AllDigits(s[1..]) || |s| > 10 then None
    else Some(Scaled(ParseInt(s[1..]), 10 - |s|))
  }

  function Exponent(s: string): (r: Option<nat>)
    ensures r.Some? ==> r.value <= 9
  {
    if s == "" then Some(0)
    else if |s| != 4 || s[1] != '-' || !AllDigits(s[2..]) || ParseInt(s[2..]) > 9 then None
    else Some(ParseInt(s[2..]))
  }

  /** Reading a fraction back, with a 0 put before it; the result counts thousand-millionths of a
      nanosecond. */
  function ParseFraction(s: string): Option<nat> {
    var k := Until(s, 'e');
    var v, x := Mantissa(s[..k]), Exponent(s[k..]);
    if v.Some? && x.Some? then Some(Scaled(v.value, 9 - x.value)) else None
  }

  lemma {:induction false} UntilEnd(a: string, b: string, c: char)
    requires c !in a && (b == "" || b[0] == c)
    ensures Until(a + b, c) == |a|
  {
    if a == "" {
      assert a + b == b;
    } else {
      UntilEnd(a[1..], b, c);
      assert (a + b)[1..] == a[1..] + b;
    }
  }

  lemma {:induction false} PowAdd(a: nat, b: nat)
    ensures Pow10(a + b) == Pow10(a) * Pow10(b)
  {
    if a > 0 {
      PowAdd(a - 1, b);
      TenTimes(Pow10(b), Pow10(a - 1));
      assert Pow10(a + b) == 10 * Pow10(a + b - 1);
    }
  }

  /** Digits stripped of trailing zeros stand for the number, scaled down. */
  lemma StrippedValue(n: nat, k: nat)
    requires n < Pow10(k)
    ensures var r := Strip(Digits(n, k));
            |r| <= k && AllDigits(r) && Scaled(ParseInt(r), k - |r|) == n
  {
    var r := Strip(Digits(n, k));
    StripEnds(Digits(n, k));
    StripPad(Digits(n, k));
    ParseZeros(r, k - |r|);
    ParseDigits(n, k);
    hide ParseInt, Pow10, Strip, Digits, Zeros;
  }

  predicate Legible(n: nat) {
    n == 0 || n >= 100_000
  }

  /** What a fraction is read back as: below a ten-thousandth of a second its leading digit is gone. */
  function ReadAs(n: nat): nat {
    if Legible(n) then n else n % Pow10(Width(n) - 1)
  }

  lemma Billion()
    ensures Pow10(9) == BILLION
  {
    assert Pow10(3) == 1000;
    PowAdd(3, 3);
    PowAdd(6, 3);
  }

  lemma ReadMantissa(rest: string)
    requires AllDigits(rest) && |rest| <= 9
    ensures Mantissa(Point(rest)) == Some(Scaled(ParseInt(rest), 9 - |rest|))
  {
    hide Pow10;
    if rest != "" {
      hide ParseInt, Scaled;
      var s := "." + rest;
      assert s[1..] == rest;
    }
  }

  lemma ReadExponent(x: nat)
    requires x <= 9
    ensures Exponent("e-" + Digits(x, 2)) == Some(x)
  {
    assert Pow10(2) == 100 by { PowAdd(1, 1); }
    ParseDigits(x, 2);
    hide Pow10, Digits, ParseInt;
    var s := "e-" + Digits(x, 2);
    assert s[2..] == Digits(x, 2);
  }

  lemma NoExponent(rest: string)
    requires AllDigits(rest)
    ensures 'e' !in Point(rest)
  {
  }

  lemma ReadExponential(rest: string, x: nat)
    requires AllDigits(rest) && |rest| <= 9 && x <= 9
    ensures ParseFraction(Exponential(rest, x)) == Some(Scaled(Scaled(ParseInt(rest), 9 - |rest|), 9 - x))
  {
    hide ParseFraction, Point, Digits, ParseInt, Mantissa, Exponent, Scaled, AllDigits, Until;
    ReadMantissa(rest);
    ReadExponent(x);
    NoExponent(rest);
    ReadParts(Point(rest), "e-" + Digits(x, 2));
  }

  lemma ReadParts(mantissa: string, tail: string)
    requires 'e' !in mantissa && (tail == "" || tail[0] == 'e')
    requires Mantissa(mantissa).Some? && Exponent(tail).Some?
    ensures ParseFraction(mantissa + tail) == Some(Scaled(Mantissa(mantissa).value, 9 - Exponent(tail).value))
  {
    var s := mantissa + tail;
    UntilEnd(mantissa, tail, 'e');
    hide Until, Mantissa, Exponent, Scaled;
    assert s[..|mantissa|] == mantissa && s[|mantissa|..] == tail;
  }

  lemma ReadLegible(n: nat)
    requires 100_000 <= n < BILLION
    ensures ParseFraction(Fraction(n)) == Some(Scaled(n, 9))
  {
    Billion();
    var rest := Strip(Digits(n, 9));
    assert Fraction(n) == Point(rest);
    assert Point(rest) + "" == Point(rest);
    assert Exponent("") == Some(0);
    hide *;
    StrippedValue(n, 9);
    ReadMantissa(rest);
    NoExponent(rest);
    ReadParts(Point(rest), "");
  }

  lemma ReadTiny(n: nat)
    requires 0 < n < 100_000
    ensures ParseFraction(Fraction(n)) == Some(Scaled(ReadAs(n), 9))
  {
    var p := Width(n);
    hide Pow10, Width, Strip, Digits, Exponential, Point, ParseFraction, Scaled;
    var q := n % Pow10(p - 1);
    var rest := Strip(Digits(q, p - 1));
    assert Fraction(n) == Exponential(rest, 10 - p);
    assert ReadAs(n) == q;
    assert q < Pow10(p - 1);
    hide *;
    StrippedValue(q, p - 1);
    ReadExponential(rest, 10 - p);
    TinyValue(rest, q, p);
  }

  lemma TinyValue(rest: string, q: nat, p: nat)
    requires 1 <= p <= 5 && AllDigits(rest) && |rest| <= p - 1 && Scaled(ParseInt(rest), p - 1 - |rest|) == q
    ensures Scaled(Scaled(ParseInt(rest), 9 - |rest|), 9 - (10 - p)) == Scaled(q, 9)
  {
    var v, a, b, c := ParseInt(rest), Pow10(p - 1 - |rest|), Pow10(10 - p), Pow10(p - 1);
    PowAdd(p - 1 - |rest|, 10 - p);
    PowAdd(10 - p, p - 1);
    assert Pow10(9 - |rest|) == a * b && Pow10(9) == b * c;
    hide ParseInt, Pow10;
    Regroup(v, a, b, c);
  }

  lemma Regroup(v: nat, a: nat, b: nat, c: nat)
    ensures v * (a * b) * c == v * a * (b * c)
  {
    assert v * (a * b) == v * a * b;
  }

  lemma ScaledNine(v: nat)
    ensures Scaled(v, 9) == Billions(v)
  {
    Billion();
    hide Pow10;
  }

  lemma ReadAsIff(n: nat)
    ensures ReadAs(n) == n <==> Legible(n)
    ensures n == 0 ==> ParseFraction(Fraction(n)) == Some(Scaled(ReadAs(n), 9))
  {
    hide Pow10;
  }

  /** The fraction of a second is read back as it was written if and only if it is nothing or at
      least a ten-thousandth. */
  lemma FractionReads(n: nat)
    requires n < BILLION
    ensures ParseFraction(Fraction(n)) == Some(Billions(ReadAs(n)))
    ensures ReadAs(n) == n <==> Legible(n)
  {
    ScaledNine(ReadAs(n));
    ReadAsIff(n);
    hide Fraction, ParseFraction, ReadAs, Scaled, Billions;
    if n >= 100_000 {
      ReadLegible(n);
    } else if n > 0 {
      ReadTiny(n);
    }
  }

  lemma SomeDigit(n: nat)
    requires 0 < n < BILLION
    ensures Strip(Digits(n, 9)) != ""
  {
    Billion();
    StrippedValue(n, 9);
    hide Strip, Digits, Pow10;
  }

  lemma FractionLess(n: nat, m: nat)
    requires n < m < BILLION && Legible(n) && Legible(m)
    ensures Less(Fraction(n), Fraction(m))
  {
    SomeDigit(m);
    if n > 0 {
      SomeDigit(n);
      Billion();
      DigitsLess(n, m, 9);
      StripLess(Digits(n, 9), Digits(m, 9));
      LessAfter(".", Strip(Digits(n, 9)), Strip(Digits(m, 9)));
    }
    hide Strip, Digits, Pow10;
  }

  // Whole times.

  function Whole(t: nat): nat {
    t / BILLION
  }

  function Part(t: nat): (n: nat)
    ensures n < BILLION
  {
    t % BILLION
  }

  function DateText(b: Broken): (s: string)
    ensures |s| == 15
  {
    Digits(b.year, 4) + (Digits(b.month, 2) + (Digits(b.day, 2) + ("T" +
    (Digits(b.hour, 2) + (Digits(b.minute, 2) + Digits(b.second, 2))))))
  }

  /** The text of a time of `t` nanoseconds. */
  function Text(t: nat): string {
    DateText(BreakDown(Whole(t))) + Fraction(Part(t))
  }

  /** One time before another, field by field. */
  ghost predicate Earlier(b: Broken, c: Broken) {
    b.year < c.year || (b.year == c.year && (
    b.month < c.month || (b.month == c.month && (
    b.day < c.day || (b.day == c.day && (
    b.hour < c.hour || (b.hour == c.hour && (
    b.minute < c.minute || (b.minute == c.minute && b.second < c.second)))))))))
  }

  lemma DayInYear(b: Broken)
    requires IsTime(b)
    ensures DaysToMonth(b.year, b.month) + b.day <= YearLength(b.year)
  {
    MonthsGrow(b.year, b.month, 13);
    YearOfMonths(b.year);
    hide DaysToMonth, MonthLength, YearLength;
  }

  /** The number of days before the day of `b`. */
  function DayNumber(b: Broken): int
    requires b.month >= 1
  {
    DaysToYear(b.year) + DaysToMonth(b.year, b.month) + b.day - 1
  }

  lemma EarlierDay(b: Broken, c: Broken)
    requires IsTime(b) && IsTime(c)
    requires b.year < c.year || (b.year == c.year && (b.month < c.month || (b.month == c.month && b.day < c.day)))
    ensures DayNumber(b) < DayNumber(c)
  {
    if b.year < c.year {
      DayInYear(b);
      YearsGrow(b.year, c.year);
    } else if b.month < c.month {
      MonthsGrow(b.year, b.month, c.month);
    }
    hide DaysToYear, DaysToMonth, MonthLength, YearLength;
  }

  lemma EarlierSeconds(b: Broken, c: Broken)
    requires IsTime(b) && IsTime(c) && Earlier(b, c)
    ensures Seconds(b) < Seconds(c)
  {
    if b.year != c.year || b.month != c.month || b.day != c.day {
      EarlierDay(b, c);
    }
    assert Seconds(b) == DayNumber(b) * 86400 + b.hour * 3600 + b.minute * 60 + b.second;
    assert Seconds(c) == DayNumber(c) * 86400 + c.hour * 3600 + c.minute * 60 + c.second;
    assert (b.year, b.month, b.day) == (c.year, c.month, c.day) ==> DayNumber(b) == DayNumber(c);
    hide DayNumber, Seconds, MonthLength;
  }

  /** Between the first seconds of 1970 and of the year 10000. */
  ghost predicate InRange(t: nat) {
    BreakDown(Whole(t)).year <= 9999
  }

  /** The years up to 9999 are exactly the times before the first second of the year 10000. */
  lemma RangeEnd(t: nat)
    ensures InRange(t) <==> t < DaysToYear(10000) * 86400 * BILLION
  {
    var s := Whole(t);
    var b, end := BreakDown(s), Broken(10000, 1, 1, 0, 0, 0);
    Together(s);
    assert Seconds(end) == DaysToYear(10000) * 86400;
    assert IsTime(end);
    if b.year <= 9999 {
      EarlierSeconds(b, end);
    } else if Earlier(end, b) {
      EarlierSeconds(end, b);
    }
    hide BreakDown, Seconds, DaysToYear, MonthLength;
  }

  lemma LeadLess(n: nat, m: nat, k: nat, x: string, y: string)
    requires n < m < Pow10(k)
    ensures Less(Digits(n, k) + x, Digits(m, k) + y)
  {
    DigitsLess(n, m, k);
    LessAppend(Digits(n, k), Digits(m, k), x, y);
  }

  function ClockText(b: Broken): (s: string)
    ensures |s| == 6
  {
    Digits(b.hour, 2) + (Digits(b.minute, 2) + Digits(b.second, 2))
  }

  lemma Hundred()
    ensures Pow10(2) == 100 && Pow10(4) == 10_000
  {
    PowAdd(1, 1);
    PowAdd(2, 2);
  }

  lemma ClockLess(b: Broken, c: Broken)
    requires IsTime(b) && IsTime(c)
    requires b.hour < c.hour
             || (b.hour == c.hour && (b.minute < c.minute || (b.minute == c.minute && b.second < c.second)))
    ensures Less(ClockText(b), ClockText(c))
  {
    Hundred();
    hide Digits, Less, Pow10, MonthLength;
    var r, q := Digits(b.minute, 2) + Digits(b.second, 2), Digits(c.minute, 2) + Digits(c.second, 2);
    if b.hour < c.hour {
      LeadLess(b.hour, c.hour, 2, r, q);
    } else {
      if b.minute < c.minute {
        LeadLess(b.minute, c.minute, 2, Digits(b.second, 2), Digits(c.second, 2));
      } else {
        DigitsLess(b.second, c.second, 2);
        LessAfter(Digits(b.minute, 2), Digits(b.second, 2), Digits(c.second, 2));
      }
      LessAfter(Digits(b.hour, 2), r, q);
    }
  }

  lemma DateLess(b: Broken, c: Broken)
    requires IsTime(b) && IsTime(c) && b.year <= 9999 && c.year <= 9999 && Earlier(b, c)
    ensures Less(DateText(b), DateText(c))
  {
    Hundred();
    MonthsShort(b);
    MonthsShort(c);
    var t, u := "T" + ClockText(b), "T" + ClockText(c);
    var d, e := Digits(b.day, 2) + t, Digits(c.day, 2) + u;
    var r, q := Digits(b.month, 2) + d, Digits(c.month, 2) + e;
    assert DateText(b) == Digits(b.year, 4) + r && DateText(c) == Digits(c.year, 4) + q;
    hide Digits, Less, Pow10, MonthLength, ClockText, DateText;
    if b.year < c.year {
      LeadLess(b.year, c.year, 4, r, q);
    } else {
      if b.month < c.month {
        LeadLess(b.month, c.month, 2, d, e);
      } else {
        if b.day < c.day {
          LeadLess(b.day, c.day, 2, t, u);
        } else {
          ClockLess(b, c);
          LessAfter("T", ClockText(b), ClockText(c));
          LessAfter(Digits(b.day, 2), t, u);
        }
        LessAfter(Digits(b.month, 2), d, e);
      }
      LessAfter(Digits(b.year, 4), r, q);
    }
  }

  lemma MonthsShort(b: Broken)
    requires IsTime(b)
    ensures b.day <= 31
  {
  }

  /** The order of the texts is the order of the times, for times whose fractions are nothing or at
      least a ten-thousandth of a second. */
  lemma TextOrder(t: nat, u: nat)
    requires InRange(t) && InRange(u) && Legible(Part(t)) && Legible(Part(u)) && t < u
    ensures Less(Text(t), Text(u)) && !Less(Text(u), Text(t)) && Text(t) != Text(u)
  {
    var b, c := BreakDown(Whole(t)), BreakDown(Whole(u));
    var f, g := Fraction(Part(t)), Fraction(Part(u));
    Together(Whole(t));
    Together(Whole(u));
    if Whole(t) == Whole(u) {
      FractionLess(Part(t), Part(u));
      LessAfter(DateText(b), f, g);
    } else {
      if Earlier(c, b) {
        EarlierSeconds(c, b);
      }
      DateLess(b, c);
      LessAppend(DateText(b), DateText(c), f, g);
    }
    LessNotBoth(Text(t), Text(u));
    hide BreakDown, Fraction, Less, DateText, Seconds;
  }

  lemma StripTen(n: nat, k: nat)
    ensures Strip(Digits(10 * n, k + 1)) == Strip(Digits(n, k))
  {
    var s := Digits(10 * n, k + 1);
    assert 10 * n / 10 == n && 10 * n % 10 == 0;
    assert s[..|s| - 1] == Digits(n, k);
  }

  lemma OneInFour()
    ensures Strip(Digits(1, 4)) == "0001"
  {
    assert Digits(0, 1) == "0";
    assert Digits(0, 2) == "00";
    assert Digits(0, 3) == "000";
    assert Digits(1, 4) == "0001";
  }

  lemma TenThousandth()
    ensures Fraction(100_000) == ".0001"
  {
    OneInFour();
    hide Digits, Strip;
    StripTen(10_000, 8);
    StripTen(1000, 7);
    StripTen(100, 6);
    StripTen(10, 5);
    StripTen(1, 4);
  }

  lemma BeforeDigits(r: string, tail: string)
    requires AllDigits(r) && 1 <= |r| <= 4 && r[|r| - 1] != '0' && tail != ""
    ensures Less(".0001", "." + r + tail)
  {
    var a, b := ".0001", "." + r + tail;
    if r[0] != '0' {
      LessBy(a, b, 1);
    } else if r[1] != '0' {
      LessBy(a, b, 2);
    } else if r[2] != '0' {
      LessBy(a, b, 3);
    } else if r[3] != '1' {
      LessBy(a, b, 4);
    } else {
      LessBy(a, b, 5);
    }
  }

  lemma TinyParts(n: nat) returns (rest: string, tail: string)
    requires 0 < n < 100_000
    ensures Fraction(n) == Point(rest) + tail && tail != "" && tail[0] == 'e'
    ensures AllDigits(rest) && |rest| <= 4 && (rest == "" || rest[|rest| - 1] != '0')
  {
    hide Digits, Strip, Pow10, Width;
    var p := Width(n);
    var q := n % Pow10(p - 1);
    rest := Strip(Digits(q, p - 1));
    tail := "e-" + Digits(10 - p, 2);
    StripEnds(Digits(q, p - 1));
  }

  /** A ten-thousandth of a second sorts before every smaller fraction but 0. */
  lemma TinySortsAfter(n: nat)
    requires 0 < n < 100_000
    ensures Less(Fraction(100_000), Fraction(n))
  {
    hide Fraction, Less;
    TenThousandth();
    var rest, tail := TinyParts(n);
    if rest == "" {
      LessBy(".0001", Point(rest) + tail, 0);
    } else {
      BeforeDigits(rest, tail);
    }
  }

  /** A time sorts before every later time that is written legibly if and only if it is itself
      written legibly, that is, its fraction is nothing or at least a ten-thousandth. */
  lemma TextOrderIff(t: nat)
    requires InRange(t)
    ensures (forall u | InRange(u) && Legible(Part(u)) && t < u :: Less(Text(t), Text(u))) <==> Legible(Part(t))
  {
    if Legible(Part(t)) {
      forall u | InRange(u) && Legible(Part(u)) && t < u ensures Less(Text(t), Text(u)) {
        TextOrder(t, u);
      }
    } else {
      var u := NextLegible(t);
      TinySortsAfter(Part(t));
      LessAfter(DateText(BreakDown(Whole(t))), Fraction(Part(u)), Fraction(Part(t)));
      LessNotBoth(Text(t), Text(u));
    }
  }

  lemma NextLegible(t: nat) returns (u: nat)
    requires InRange(t) && !Legible(Part(t))
    ensures InRange(u) && t < u && Whole(u) == Whole(t) && Part(u) == 100_000
  {
    u := t - Part(t) + 100_000;
    assert u == Whole(t) * BILLION + 100_000;
  }

  /** It is not the order of the times for smaller fractions: a nanosecond reads as later than
      half a second. */
  lemma TinyOrder()
    ensures Less(Text(500_000_000), Text(1)) && !Less(Text(1), Text(500_000_000))
  {
    var b := BreakDown(0);
    assert Whole(500_000_000) == 0 && Whole(1) == 0;
    SomeDigit(500_000_000);
    assert Width(1) == 1;
    assert Digits(0, 0) == "";
    assert Strip("") == "";
    var f, g := Fraction(500_000_000), Fraction(1);
    assert f[0] == '.';
    assert g[0] == 'e';
    LessBy(f, g, 0);
    LessAfter(DateText(b), f, g);
    LessNotBoth(Text(500_000_000), Text(1));
  }

  // Reading a time back.

  function Without(s: string, c: char): string {
    if s == "" then ""
    else if s[|s| - 1] == c then Without(s[..|s| - 1], c)
    else Without(s[..|s| - 1], c) + [s[|s| - 1]]
  }

  lemma {:induction false} WithoutConcat(a: string, b: string, c: char)
    ensures Without(a + b, c) == Without(a, c) + Without(b, c)
    decreases |b|
  {
    if b == "" {
      assert a + b == a;
    } else {
      WithoutConcat(a, b[..|b| - 1], c);
      assert (a + b)[..|a + b| - 1] == a + b[..|b| - 1];
    }
  }

  lemma {:induction false} WithoutNone(a: string, c: char)
    requires c !in a
    ensures Without(a, c) == a
  {
    if a != "" {
      WithoutNone(a[..|a| - 1], c);
    }
  }

  /** Reading a time: the T is dropped, the fields are cut out at fixed places, and what is no date
      is refused. The result counts thousand-millionths of a nanosecond. */
  function Parse(text: string): Option<int> {
    if |text| < 9 then None else ParsePlain(if text[8] == 'T' then Without(text, 'T') else text)
  }

  function ParsePlain(s: string): Option<int> {
    if |s| < 14 || !AllDigits(s[..14]) then None
    else
      var b, f := Fields(s), ParseFraction(s[14..]);
      if IsTime(b) && f.Some? then Some(Attoseconds(b, f.value)) else None
  }

  function Attoseconds(b: Broken, f: nat): int
    requires b.month >= 1
  {
    Billions(Billions(Seconds(b))) + f
  }

  function Fields(s: string): Broken
    requires |s| >= 14 && AllDigits(s[..14])
  {
    Broken(Field(s, 0, 4), Field(s, 4, 6), Field(s, 6, 8), Field(s, 8, 10), Field(s, 10, 12), Field(s, 12, 14))
  }

  function Field(s: string, i: nat, j: nat): nat
    requires i <= j <= 14 <= |s| && AllDigits(s[..14])
  {
    assert forall k | i <= k < j :: s[k] == s[..14][k];
    ParseInt(s[i..j])
  }

  /** The fourteen digits of a date, without the T. */
  function Plain(b: Broken): (s: string)
    ensures |s| == 14 && AllDigits(s)
  {
    Digits(b.year, 4) + (Digits(b.month, 2) + (Digits(b.day, 2) + ClockText(b)))
  }

  lemma Cut(y: string, m: string, d: string, h: string, mi: string, z: string, f: string)
    requires |y| == 4 && |m| == |d| == |h| == |mi| == |z| == 2
    ensures var s := y + (m + (d + (h + (mi + z)))) + f;
            && s[0..4] == y && s[4..6] == m && s[6..8] == d && s[8..10] == h && s[10..12] == mi && s[12..14] == z
            && s[..14] == y + (m + (d + (h + (mi + z)))) && s[14..] == f
  {
  }

  lemma PlainFields(b: Broken, f: string)
    requires IsTime(b) && b.year <= 9999
    ensures var s := Plain(b) + f;
            s[..14] == Plain(b) && s[14..] == f && Fields(s) == b
  {
    Hundred();
    MonthsShort(b);
    ParseDigits(b.year, 4);
    ParseDigits(b.month, 2);
    ParseDigits(b.day, 2);
    ParseDigits(b.hour, 2);
    ParseDigits(b.minute, 2);
    ParseDigits(b.second, 2);
    Cut(Digits(b.year, 4), Digits(b.month, 2), Digits(b.day, 2),
        Digits(b.hour, 2), Digits(b.minute, 2), Digits(b.second, 2), f);
    hide Digits, ParseInt, Pow10, MonthLength;
  }

  lemma DropOne(lead: string, tail: string, c: char)
    requires c !in lead && c !in tail
    ensures Without(lead + ([c] + tail), c) == lead + tail
  {
    assert Without([c], c) == "" by { assert Without("", c) == ""; }
    WithoutNone(lead, c);
    WithoutNone(tail, c);
    WithoutConcat([c], tail, c);
    WithoutConcat(lead, [c] + tail, c);
    hide Without;
  }

  lemma DropT(b: Broken, f: string)
    requires 'T' !in f
    ensures var s := DateText(b) + f; s[8] == 'T' && Without(s, 'T') == Plain(b) + f
  {
    hide Without, Digits, ClockText;
    var lead, tail := Digits(b.year, 4) + (Digits(b.month, 2) + Digits(b.day, 2)), ClockText(b) + f;
    ClockDigits(b);
    assert AllDigits(lead) && 'T' !in lead;
    assert 'T' !in tail;
    DropOne(lead, tail, 'T');
    assert DateText(b) + f == lead + ("T" + tail) by { DateIs(b); }
    assert Plain(b) + f == lead + tail;
  }

  lemma ClockDigits(b: Broken)
    ensures AllDigits(ClockText(b))
  {
  }

  lemma DateIs(b: Broken)
    ensures DateText(b) == Digits(b.year, 4) + (Digits(b.month, 2) + (Digits(b.day, 2) + ("T" + ClockText(b))))
  {
  }

  lemma NoT(n: nat)
    requires n < BILLION
    ensures 'T' !in Fraction(n)
  {
    hide Digits, Width, Pow10;
    if n >= 100_000 {
      StripEnds(Digits(n, 9));
    } else if n > 0 {
      var p := Width(n);
      StripEnds(Digits(n % Pow10(p - 1), p - 1));
    }
    hide Strip;
  }

  lemma ParsePlainText(b: Broken, f: string)
    requires IsTime(b) && b.year <= 9999 && ParseFraction(f).Some?
    ensures ParsePlain(Plain(b) + f) == Some(Attoseconds(b, ParseFraction(f).value))
  {
    PlainFields(b, f);
    hide Plain, Attoseconds, ParseFraction, Fields, IsTime;
  }

  lemma ParseText(b: Broken, n: nat)
    requires IsTime(b) && b.year <= 9999 && n < BILLION
    ensures Parse(DateText(b) + Fraction(n)) == Some(Attoseconds(b, Billions(ReadAs(n))))
  {
    NoT(n);
    DropT(b, Fraction(n));
    FractionReads(n);
    hide Fraction, Without, Plain, DateText, Attoseconds, ParsePlain, ParseFraction, ReadAs, IsTime;
    ParsePlainText(b, Fraction(n));
  }

  lemma SplitTime(t: nat)
    ensures t == Billions(Whole(t)) + Part(t)
  {
  }

  lemma Reads(s: nat, n: nat)
    requires n < BILLION && BreakDown(s).year <= 9999
    ensures Parse(DateText(BreakDown(s)) + Fraction(n)) == Some(Billions(Billions(s) + ReadAs(n)))
  {
    hide BreakDown, Fraction, DateText, Seconds, Parse, ReadAs, IsTime, Billions;
    Together(s);
    ParseText(BreakDown(s), n);
    BillionsAdd(Billions(s), ReadAs(n));
  }

  /** For every time from 1970 to the end of 9999: reading undoes writing if and only if the fraction
      of a second is nothing or at least a ten-thousandth; otherwise the leading digit of the
      fraction is lost. */
  lemma TextReads(t: nat)
    requires InRange(t)
    ensures Parse(Text(t)) == Some(Billions(Billions(Whole(t)) + ReadAs(Part(t))))
    ensures Parse(Text(t)) == Some(Billions(t)) <==> Legible(Part(t))
  {
    SplitTime(t);
    hide Whole, Part, BreakDown, Fraction, DateText, Parse, ParseFraction, ReadAs, Legible, Billions;
    var s, n := Whole(t), Part(t);
    Reads(s, n);
    FractionReads(n);
    BillionsAdd(Billions(s) + ReadAs(n), t);
  }

  /** A nanosecond is read back as nothing. */
  lemma TinyLost()
    ensures Parse(Text(1)) == Some(0)
  {
    assert Whole(1) == 0 && Part(1) == 1 && Width(1) == 1;
    assert YearFrom(0, 1970) == (1970, 0);
    TextReads(1);
  }
}
