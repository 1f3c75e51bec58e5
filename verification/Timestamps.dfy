/** RFC 3339 timestamps in UTC (section 5.1): when comparing their text, as the instances'
    sort and older_than cut do, agrees with comparing the instants, as the merge does. */
module Timestamps {
  import opened Ordering
  import opened Text
  import opened QueryLog
  import opened Runs

  /** `frac` is the list of fractional digits of the second, most significant first. */
  datatype Stamp = Stamp(year: nat, month: nat, day: nat, hour: nat, minute: nat, second: nat, frac: seq<nat>)
  {
    predicate Valid()
    {
      && year <= 9999 && 1 <= month <= 12 && 1 <= day <= DaysIn(year, month)
      && hour < 24 && minute < 60 && second < 60
      && |frac| <= 9 && forall i | 0 <= i < |frac| :: frac[i] < 10
    }

    /** As time.RFC3339Nano formats: trailing zeros of the second are dropped. */
    predicate Canonical() { Valid() && (frac != [] ==> frac[|frac| - 1] != 0) }
  }

  // ---------------------------------------------------------------- the calendar

  predicate Leap(year: nat)
  {
    year % 4 == 0 && (year % 100 != 0 || year % 400 == 0)
  }

  function DaysIn(year: nat, month: nat): (d: nat)
  {
    if month == 2 then (if Leap(year) then 29 else 28)
    else if month in {4, 6, 9, 11} then 30
    else 31
  }

  /** Days of the year before the month begins. */
  function MonthStart(year: nat, month: nat): (d: nat)
  {
    if month <= 1 then 0 else MonthStart(year, month - 1) + DaysIn(year, month - 1)
  }

  function YearStart(year: nat): (d: nat)
  {
    if year == 0 then 0 else YearStart(year - 1) + MonthStart(year - 1, 13)
  }

  function DayNumber(s: Stamp): (d: int)
  {
    YearStart(s.year) + MonthStart(s.year, s.month) + s.day - 1
  }

  function Seconds(s: Stamp): (t: int)
  {
    ((DayNumber(s) * 24 + s.hour) * 60 + s.minute) * 60 + s.second
  }

  function Pow10(k: nat): (n: nat)
    ensures n >= 1
  {
    if k == 0 then 1 else 10 * Pow10(k - 1)
  }

  /** The value of the digits in units of 10 ^ -k seconds. */
  function Fraction(frac: seq<nat>, k: nat): (n: nat)
    requires |frac| <= k
  {
    if frac == [] then 0 else frac[0] * Pow10(k - 1) + Fraction(frac[1..], k - 1)
  }

  /** Nanoseconds since the beginning of year 0. */
  function Instant(s: Stamp): (t: int)
    requires |s.frac| <= 9
  {
    Seconds(s) * 1_000_000_000 + Fraction(s.frac, 9)
  }

  /** Year to second, compared in that order. */
  predicate Earlier(a: Stamp, b: Stamp)
  {
    || a.year < b.year
    || (a.year == b.year && (
          || a.month < b.month
          || (a.month == b.month && (
                || a.day < b.day
                || (a.day == b.day && (
                      || a.hour < b.hour
                      || (a.hour == b.hour && (
                            || a.minute < b.minute
                            || (a.minute == b.minute && a.second < b.second)))))))))
  }

  /** Where the months begin. */
  lemma {:induction false} MonthStarts(year: nat)
    ensures var l := if year % 4 == 0 && (year % 100 != 0 || year % 400 == 0) then 1 else 0;
            && MonthStart(year, 1) == 0 && MonthStart(year, 2) == 31 && MonthStart(year, 3) == 59 + l
            && MonthStart(year, 4) == 90 + l && MonthStart(year, 5) == 120 + l && MonthStart(year, 6) == 151 + l
            && MonthStart(year, 7) == 181 + l && MonthStart(year, 8) == 212 + l && MonthStart(year, 9) == 243 + l
            && MonthStart(year, 10) == 273 + l && MonthStart(year, 11) == 304 + l && MonthStart(year, 12) == 334 + l
            && MonthStart(year, 13) == 365 + l
  {
  }

  lemma {:induction false} YearLength(year: nat)
    ensures MonthStart(year, 13) == 365 + if year % 4 == 0 && (year % 100 != 0 || year % 400 == 0) then 1 else 0
  {
    MonthStarts(year);
  }

  /** Counting the multiples of 4, 100 and 400. */
  lemma {:induction false} LeapStep(y: nat)
    ensures (y + 4) / 4 - (y + 3) / 4 == if y % 4 == 0 then 1 else 0
    ensures (y + 100) / 100 - (y + 99) / 100 == if y % 100 == 0 then 1 else 0
    ensures (y + 400) / 400 - (y + 399) / 400 == if y % 400 == 0 then 1 else 0
  {
    LeapStep4(y);
    LeapStep100(y);
    LeapStep400(y);
  }

  lemma {:induction false} LeapStep4(y: nat)
    ensures (y + 4) / 4 - (y + 3) / 4 == if y % 4 == 0 then 1 else 0
  {
  }

  lemma {:induction false} LeapStep100(y: nat)
    ensures (y + 100) / 100 - (y + 99) / 100 == if y % 100 == 0 then 1 else 0
  {
  }

  lemma {:induction false} LeapStep400(y: nat)
    ensures (y + 400) / 400 - (y + 399) / 400 == if y % 400 == 0 then 1 else 0
  {
  }

  lemma {:induction false} Multiples(y: nat)
    ensures y % 400 == 0 ==> y % 100 == 0
    ensures y % 100 == 0 ==> y % 4 == 0
  {
    if y % 400 == 0 {
      assert y == 100 * (4 * (y / 400));
    }
    if y % 100 == 0 {
      assert y == 4 * (25 * (y / 100));
    }
  }

  function LeapsBefore(year: nat): (n: int)
  {
    (year + 3) / 4 - (year + 99) / 100 + (year + 399) / 400
  }

  lemma {:induction false} LeapsGrow(y: nat)
    ensures LeapsBefore(y + 1) == LeapsBefore(y) + if y % 4 == 0 && (y % 100 != 0 || y % 400 == 0) then 1 else 0
  {
    LeapStep(y);
    Multiples(y);
  }

  /** Where the years begin, leap days counted. */
  lemma {:induction false} YearStarts(year: nat)
    ensures YearStart(year) == 365 * year + ((year + 3) / 4 - (year + 99) / 100 + (year + 399) / 400)
  {
    if year > 0 {
      YearStarts(year - 1);
      YearLength(year - 1);
      LeapsGrow(year - 1);
    }
  }

  predicate SameSecond(a: Stamp, b: Stamp)
  {
    a == b.(frac := a.frac)
  }

  lemma {:induction false} MonthsGrow(year: nat, m: nat, m': nat)
    requires 1 <= m < m'
    ensures MonthStart(year, m) + DaysIn(year, m) <= MonthStart(year, m')
  {
    if m + 1 < m' {
      MonthsGrow(year, m, m' - 1);
    }
  }

  lemma {:induction false} YearsGrow(y: nat, y': nat)
    requires y < y'
    ensures YearStart(y) + MonthStart(y, 13) <= YearStart(y')
  {
    if y + 1 < y' {
      YearsGrow(y, y' - 1);
    }
  }

  lemma {:induction false} EarlierDay(a: Stamp, b: Stamp)
    requires a.Valid() && b.Valid()
    requires a.year < b.year || (a.year == b.year && (a.month < b.month || (a.month == b.month && a.day < b.day)))
    ensures DayNumber(a) < DayNumber(b)
  {
    MonthsGrow(a.year, a.month, 13);
    if a.year < b.year {
      YearsGrow(a.year, b.year);
    } else if a.month < b.month {
      MonthsGrow(a.year, a.month, b.month);
    }
  }

  /** The calendar counts seconds in the order of the fields. */
  lemma {:induction false} EarlierSeconds(a: Stamp, b: Stamp)
    requires a.Valid() && b.Valid()
    ensures Earlier(a, b) <==> Seconds(a) < Seconds(b)
    ensures SameSecond(a, b) <==> Seconds(a) == Seconds(b)
  {
    if a.year < b.year || (a.year == b.year && (a.month < b.month || (a.month == b.month && a.day < b.day))) {
      EarlierDay(a, b);
    } else if a.year != b.year || a.month != b.month || a.day != b.day {
      EarlierDay(b, a);
    }
  }

  // ---------------------------------------------------------------- the text

  function Digit(d: nat): (c: char)
    requires d < 10
    ensures '0' <= c <= '9' && c as int == '0' as int + d
  {
    ('0' as int + d) as char
  }

  function Digits(n: nat, width: nat): (s: string)
    ensures |s| == width
  {
    if width == 0 then "" else Digits(n / 10, width - 1) + [Digit(n % 10)]
  }

  function FracText(frac: seq<nat>): (s: string)
    requires forall i | 0 <= i < |frac| :: frac[i] < 10
  {
    if frac == [] then "Z" else [Digit(frac[0])] + FracText(frac[1..])
  }

  function Tail(frac: seq<nat>): (s: string)
    requires forall i | 0 <= i < |frac| :: frac[i] < 10
  {
    if frac == [] then "Z" else "." + FracText(frac)
  }

  function TimeText(s: Stamp): (t: string)
    requires s.Valid()
  {
    Digits(s.hour, 2) + (":" + (Digits(s.minute, 2) + (":" + (Digits(s.second, 2) + Tail(s.frac)))))
  }

  /** YYYY-MM-DDThh:mm:ss[.f+]Z */
  function StampText(s: Stamp): (t: string)
    requires s.Valid()
  {
    Digits(s.year, 4) + ("-" + (Digits(s.month, 2) + ("-" + (Digits(s.day, 2) + ("T" + TimeText(s))))))
  }

  lemma {:induction false} DigitsOrder(a: nat, b: nat, width: nat)
    requires a < Pow10(width) && b < Pow10(width)
    ensures Less(Digits(a, width), Digits(b, width)) <==> a < b
    ensures Digits(a, width) == Digits(b, width) <==> a == b
  {
    if width > 0 {
      DigitsOrder(a / 10, b / 10, width - 1);
      LessAppend(Digits(a / 10, width - 1), Digits(b / 10, width - 1), [Digit(a % 10)], [Digit(b % 10)]);
      assert Digits(a, width)[..width - 1] == Digits(a / 10, width - 1) && Digits(a, width)[width - 1] == Digit(a % 10);
      assert Digits(b, width)[..width - 1] == Digits(b / 10, width - 1) && Digits(b, width)[width - 1] == Digit(b % 10);
    }
  }

  lemma {:induction false} FieldOrder(a: nat, b: nat, width: nat, u: string, v: string)
    requires a < Pow10(width) && b < Pow10(width)
    ensures Less(Digits(a, width) + u, Digits(b, width) + v) <==> a < b || (a == b && Less(u, v))
  {
    DigitsOrder(a, b, width);
    LessAppend(Digits(a, width), Digits(b, width), u, v);
  }

  lemma {:induction false} TwoDigits(n: nat)
    requires n < 100
    ensures n < Pow10(2)
  {
    assert Pow10(1) == 10;
  }

  lemma {:induction false} TimeOrder(a: Stamp, b: Stamp)
    requires a.Valid() && b.Valid()
    ensures Less(TimeText(a), TimeText(b)) <==>
              a.hour < b.hour || (a.hour == b.hour && (a.minute < b.minute || (a.minute == b.minute && (a.second < b.second
                || (a.second == b.second && Less(Tail(a.frac), Tail(b.frac)))))))
  {
    TwoDigits(99);
    var (sa, sb) := (Digits(a.second, 2) + Tail(a.frac), Digits(b.second, 2) + Tail(b.frac));
    var (ma, mb) := (Digits(a.minute, 2) + (":" + sa), Digits(b.minute, 2) + (":" + sb));
    FieldOrder(a.second, b.second, 2, Tail(a.frac), Tail(b.frac));
    LessAppend(":", ":", sa, sb);
    LessTotal(":", ":");
    FieldOrder(a.minute, b.minute, 2, ":" + sa, ":" + sb);
    LessAppend(":", ":", ma, mb);
    FieldOrder(a.hour, b.hour, 2, ":" + ma, ":" + mb);
  }

  /** Text compares year to second first, and the fraction on a tie. */
  lemma {:induction false} StampOrder(a: Stamp, b: Stamp)
    requires a.Valid() && b.Valid()
    ensures Less(StampText(a), StampText(b)) <==> Earlier(a, b) || (SameSecond(a, b) && Less(Tail(a.frac), Tail(b.frac)))
  {
    TwoDigits(99);
    assert Pow10(3) == 1000 && Pow10(4) == 10000;
    var (da, db) := (Digits(a.day, 2) + ("T" + TimeText(a)), Digits(b.day, 2) + ("T" + TimeText(b)));
    var (ma, mb) := (Digits(a.month, 2) + ("-" + da), Digits(b.month, 2) + ("-" + db));
    TimeOrder(a, b);
    LessAppend("T", "T", TimeText(a), TimeText(b));
    LessTotal("T", "T");
    LessTotal("-", "-");
    FieldOrder(a.day, b.day, 2, "T" + TimeText(a), "T" + TimeText(b));
    LessAppend("-", "-", da, db);
    FieldOrder(a.month, b.month, 2, "-" + da, "-" + db);
    LessAppend("-", "-", ma, mb);
    FieldOrder(a.year, b.year, 4, "-" + ma, "-" + mb);
  }

  // ---------------------------------------------------------------- the fraction

  lemma {:induction false} ScaledLess(d: nat, e: nat, p: nat)
    requires d < e
    ensures d * p + p <= e * p
  {
    assert e * p == (e - 1) * p + p;
    if d + 1 < e {
      ScaledLess(d, e - 1, p);
    }
  }

  lemma {:induction false} FractionStep(f: seq<nat>, k: nat)
    requires f != [] && |f| <= k && f[0] < 10 && Fraction(f[1..], k - 1) < Pow10(k - 1)
    ensures f[0] * Pow10(k - 1) <= Fraction(f, k) < f[0] * Pow10(k - 1) + Pow10(k - 1)
    ensures Fraction(f, k) < Pow10(k)
  {
    ScaledLess(f[0], 10, Pow10(k - 1));
  }

  lemma {:induction false} FractionBound(f: seq<nat>, k: nat)
    requires |f| <= k && forall i | 0 <= i < |f| :: f[i] < 10
    ensures Fraction(f, k) < Pow10(k)
  {
    if f != [] {
      FractionBound(f[1..], k - 1);
      FractionStep(f, k);
    }
  }

  lemma {:induction false} SameHead(f: seq<nat>, g: seq<nat>)
    requires f != [] && g != [] && f[0] == g[0]
    ensures f <= g <==> f[1..] <= g[1..]
  {
    assert f == [f[0]] + f[1..] && g == [g[0]] + g[1..];
  }

  /** Fractions neither of which continues the other: text and value agree. */
  lemma {:induction false} DivergingFractions(f: seq<nat>, g: seq<nat>, k: nat)
    requires |f| <= k && |g| <= k
    requires (forall i | 0 <= i < |f| :: f[i] < 10) && (forall i | 0 <= i < |g| :: g[i] < 10)
    requires !(f <= g) && !(g <= f)
    ensures Less(FracText(f), FracText(g)) <==> Fraction(f, k) < Fraction(g, k)
  {
    FractionBound(f[1..], k - 1);
    FractionBound(g[1..], k - 1);
    FractionStep(f, k);
    FractionStep(g, k);
    if f[0] == g[0] {
      SameHead(f, g);
      DivergingFractions(f[1..], g[1..], k - 1);
    } else if f[0] < g[0] {
      ScaledLess(f[0], g[0], Pow10(k - 1));
    } else {
      ScaledLess(g[0], f[0], Pow10(k - 1));
    }
  }

  lemma {:induction false} ContinuedText(f: seq<nat>, g: seq<nat>)
    requires f < g && forall i | 0 <= i < |g| :: g[i] < 10
    ensures Less(FracText(g), FracText(f)) && !Less(FracText(f), FracText(g))
  {
    if f != [] {
      ContinuedTail(f, g);
      ContinuedText(f[1..], g[1..]);
    }
  }

  lemma {:induction false} ContinuedValue(f: seq<nat>, g: seq<nat>, k: nat)
    requires f < g && |g| <= k
    ensures Fraction(f, k) <= Fraction(g, k)
    ensures g[|g| - 1] != 0 ==> Fraction(f, k) < Fraction(g, k)
  {
    if f == [] {
      NonzeroFraction(g, k);
    } else {
      ContinuedTail(f, g);
      ContinuedValue(f[1..], g[1..], k - 1);
    }
  }

  /** A fraction that continues another is no smaller, and larger if it ends in no zero; its
      text sorts the other way, since a digit or a point sorts before the Z. */
  lemma {:induction false} ContinuedFraction(f: seq<nat>, g: seq<nat>, k: nat)
    requires f < g && |g| <= k && forall i | 0 <= i < |g| :: g[i] < 10
    ensures Less(FracText(g), FracText(f)) && !Less(FracText(f), FracText(g))
    ensures Fraction(f, k) <= Fraction(g, k)
    ensures g[|g| - 1] != 0 ==> Fraction(f, k) < Fraction(g, k)
  {
    ContinuedText(f, g);
    ContinuedValue(f, g, k);
  }

  lemma {:induction false} ContinuedTail(f: seq<nat>, g: seq<nat>)
    requires f != [] && f < g
    ensures f[0] == g[0] && f[1..] < g[1..] && g[1..][|g[1..]| - 1] == g[|g| - 1]
  {
  }

  lemma {:induction false} NonzeroFraction(g: seq<nat>, k: nat)
    requires g != [] && |g| <= k
    ensures g[|g| - 1] != 0 ==> Fraction(g, k) > 0
  {
    if |g| == 1 {
      ScaledLess(0, if g[0] > 0 then g[0] else 1, Pow10(k - 1));
    } else {
      NonzeroFraction(g[1..], k - 1);
    }
  }

  predicate Continues(a: Stamp, b: Stamp)
  {
    SameSecond(a, b) && (a.frac < b.frac || b.frac < a.frac)
  }

  lemma {:induction false} InstantOrder(a: Stamp, b: Stamp)
    requires a.Valid() && b.Valid()
    ensures Instant(a) < Instant(b) <==> Earlier(a, b) || (SameSecond(a, b) && Fraction(a.frac, 9) < Fraction(b.frac, 9))
  {
    EarlierSeconds(a, b);
    EarlierSeconds(b, a);
    FractionBound(a.frac, 9);
    FractionBound(b.frac, 9);
    assert Pow10(3) == 1000 && Pow10(6) == 1_000_000 && Pow10(9) == 1_000_000_000;
  }

  lemma {:induction false} TailOrder(f: seq<nat>, g: seq<nat>)
    requires (forall i | 0 <= i < |f| :: f[i] < 10) && (forall i | 0 <= i < |g| :: g[i] < 10)
    ensures Less(Tail(f), Tail(g)) <==> Less(FracText(f), FracText(g))
  {
    LessTotal(".", ".");
    if f != [] && g != [] {
      LessAppend(".", ".", FracText(f), FracText(g));
    }
  }

  /** Unless one fraction continues the other within the same second, text order is
      chronological order. */
  lemma {:induction false} TextAgrees(a: Stamp, b: Stamp)
    requires a.Valid() && b.Valid() && !Continues(a, b)
    ensures Less(StampText(a), StampText(b)) <==> Instant(a) < Instant(b)
  {
    StampOrder(a, b);
    InstantOrder(a, b);
    TailOrder(a.frac, b.frac);
    if SameSecond(a, b) {
      if a.frac == b.frac {
        LessTotal(FracText(a.frac), FracText(b.frac));
      } else {
        DivergingFractions(a.frac, b.frac, 9);
      }
    }
  }

  /** For timestamps as RFC3339Nano writes them text order is not chronological order in
      general, as the fixture's comment has it: it is for two timestamps exactly when neither
      is the other with more fractional digits. */
  lemma {:induction false} TextAgreesIff(a: Stamp, b: Stamp)
    requires a.Canonical() && b.Canonical()
    ensures (Less(StampText(a), StampText(b)) <==> Instant(a) < Instant(b)) <==> !Continues(a, b)
  {
    if Continues(a, b) {
      StampOrder(a, b);
      InstantOrder(a, b);
      TailOrder(a.frac, b.frac);
      if a.frac < b.frac {
        ContinuedFraction(a.frac, b.frac, 9);
      } else {
        ContinuedFraction(b.frac, a.frac, 9);
      }
    } else {
      TextAgrees(a, b);
    }
  }

  /** Any whole second sorts, as text, after the half second that follows it. */
  lemma {:induction false} HalfSecondDisagrees(a: Stamp, b: Stamp)
    requires a.Valid() && a.frac == [] && b == a.(frac := [5])
    ensures a.Canonical() && b.Canonical() && Instant(a) < Instant(b) && Less(StampText(b), StampText(a))
  {
    StampOrder(b, a);
    TailOrder(b.frac, a.frac);
    ContinuedFraction(a.frac, b.frac, 9);
    InstantOrder(a, b);
  }

  // ---------------------------------------------------------------- one text, one stamp

  lemma {:induction false} FracTextHead(f: seq<nat>)
    requires forall i | 0 <= i < |f| :: f[i] < 10
    ensures FracText(f) != [] && FracText(f)[0] == if f == [] then 'Z' else Digit(f[0])
    ensures f != [] ==> FracText(f)[1..] == FracText(f[1..])
  {
  }

  lemma {:induction false} FracTextInjective(f: seq<nat>, g: seq<nat>)
    requires (forall i | 0 <= i < |f| :: f[i] < 10) && (forall i | 0 <= i < |g| :: g[i] < 10)
    requires FracText(f) == FracText(g)
    ensures f == g
  {
    FracTextHead(f);
    FracTextHead(g);
    if f != [] {
      FracTextInjective(f[1..], g[1..]);
      assert f == [f[0]] + f[1..] && g == [g[0]] + g[1..];
    }
  }

  lemma {:induction false} TailHead(f: seq<nat>)
    requires forall i | 0 <= i < |f| :: f[i] < 10
    ensures Tail(f) != [] && Tail(f)[0] == if f == [] then 'Z' else '.'
    ensures f != [] ==> Tail(f)[1..] == FracText(f)
  {
  }

  lemma {:induction false} TailInjective(f: seq<nat>, g: seq<nat>)
    requires (forall i | 0 <= i < |f| :: f[i] < 10) && (forall i | 0 <= i < |g| :: g[i] < 10)
    requires Tail(f) == Tail(g)
    ensures f == g
  {
    TailHead(f);
    TailHead(g);
    if f != [] {
      FracTextInjective(f, g);
    }
  }

  /** Different timestamps have different texts. */
  lemma {:induction false} StampTextInjective(a: Stamp, b: Stamp)
    requires a.Valid() && b.Valid() && StampText(a) == StampText(b)
    ensures a == b
  {
    StampOrder(a, b);
    StampOrder(b, a);
    LessTotal(StampText(a), StampText(b));
    LessTotal(Tail(a.frac), Tail(b.frac));
    NeitherEarlier(a, b);
    TailInjective(a.frac, b.frac);
  }

  lemma {:induction false} NeitherEarlier(a: Stamp, b: Stamp)
    requires !Earlier(a, b) && !Earlier(b, a)
    ensures SameSecond(a, b)
  {
  }

  // ---------------------------------------------------------------- logs of timestamps

  /** time.Parse reads these timestamps as the instants they denote. */
  ghost predicate ParsesStamps(rt: Runtime)
  {
    forall s: Stamp | s.Valid() :: rt.parseTime(StampText(s)) == Some(Instant(s))
  }

  ghost function ReadStamp(t: string): (r: Option<int>)
  {
    if s: Stamp :| s.Valid() && StampText(s) == t then Some(Instant(s)) else None
  }

  /** There is such a parser, whatever else it reads. */
  lemma {:induction false} StampsParse(lower: char -> char) returns (rt: Runtime)
    ensures ParsesStamps(rt) && rt.lower == lower
  {
    rt := Runtime(ReadStamp, lower);
    forall s: Stamp | s.Valid() ensures rt.parseTime(StampText(s)) == Some(Instant(s)) {
      var t: Stamp :| t.Valid() && StampText(t) == StampText(s) && ReadStamp(StampText(s)) == Some(Instant(t));
      StampTextInjective(s, t);
    }
  }

  /** The time of an entry whose text does not parse. */
  lemma {:induction false} ZeroTimeIsYearOne()
    ensures Instant(Stamp(1, 1, 1, 0, 0, 0, [])) == ZERO_TIME
  {
    assert MonthStart(0, 13) == 366 && YearStart(1) == 366;
  }

  lemma {:induction false} StampTextNonempty(s: Stamp)
    requires s.Valid()
    ensures StampText(s) != ""
  {
  }

  /** The entry's time is a timestamp with `width` fractional digits. */
  ghost predicate Stamped(e: Entry, width: nat)
  {
    exists s: Stamp :: s.Valid() && |s.frac| == width && e.time == StampText(s)
  }

  lemma {:induction false} StampedAgree(rt: Runtime, name: string, x: Entry, y: Entry, width: nat)
    requires ParsesStamps(rt) && Stamped(x, width) && Stamped(y, width) && !Less(x.time, y.time)
    ensures var a, b := Enrich(rt, name, x), Enrich(rt, name, y);
            && a.rawTime != "" && b.rawTime != ""
            && (a.rawTime == b.rawTime ==> a.parsedTime == b.parsedTime)
            && (Less(b.rawTime, a.rawTime) ==> b.parsedTime < a.parsedTime)
  {
    var s: Stamp :| s.Valid() && |s.frac| == width && x.time == StampText(s);
    var t: Stamp :| t.Valid() && |t.frac| == width && y.time == StampText(t);
    StampTextNonempty(s);
    StampTextNonempty(t);
    TextAgrees(t, s);
  }

  lemma {:induction false} StampedItems(rt: Runtime, name: string, log: seq<Entry>, width: nat)
    requires ParsesStamps(rt) && Sorted(log, NewerText) && forall e | e in log :: Stamped(e, width)
    ensures Orderly(EnrichAll(rt, name, log))
  {
    var items := EnrichAll(rt, name, log);
    forall i, j | 0 <= i < j < |items|
      ensures !Less(items[i].rawTime, items[j].rawTime)
      ensures items[i].rawTime == items[j].rawTime ==> items[i].parsedTime == items[j].parsedTime
      ensures Less(items[j].rawTime, items[i].rawTime) ==> items[j].parsedTime < items[i].parsedTime
    {
      assert !NewerText(log[j], log[i]) && log[i] in log && log[j] in log;
      StampedAgree(rt, name, log[i], log[j], width);
    }
    forall i | 0 <= i < |items| ensures items[i].rawTime != "" {
      assert log[i] in log;
      LessTotal(log[i].time, log[i].time);
      StampedAgree(rt, name, log[i], log[i], width);
    }
  }

  /** Whatever is searched for in a log stored newest first by text, of timestamps of one
      width, comes as the pagination theorems need it. */
  lemma {:induction false} EqualWidthLogIsOrderly(rt: Runtime, name: string, log: seq<Entry>, width: nat, search: string, status: string)
    requires ParsesStamps(rt) && forall e | e in log :: Stamped(e, width)
    requires forall i, j | 0 <= i < j < |log| :: !Less(log[i].time, log[j].time)
    ensures Orderly(Stream(rt, name, log, search, status))
  {
    assert Sorted(log, NewerText);
    KeepSorted(log, Passing(rt, search, status), NewerText);
    StampedItems(rt, name, Keep(log, Passing(rt, search, status)), width);
  }
}
