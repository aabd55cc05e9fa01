/**
 * The proleptic Gregorian calendar of Python's `datetime.date`, as far as the
 * daily P&L script uses it: `strptime(s, "%Y%m%d")`, the day arithmetic of
 * `today - timedelta(days=30)`, and date comparison.
 */
module Calendar {
  import opened Wrappers
  import opened JsonValue
  import opened Text

  datatype Date = Date(year: int, month: int, day: int)

  predicate IsLeap(y: int)
  {
    y % 4 == 0 && (y % 100 != 0 || y % 400 == 0)
  }

  function DaysInMonth(y: int, m: int): (n: int)
    requires 1 <= m <= 12
    ensures 28 <= n <= 31
    ensures n == 29 <==> m == 2 && IsLeap(y)
  {
    if m == 2 then (if IsLeap(y) then 29 else 28)
    else if m == 4 || m == 6 || m == 9 || m == 11 then 30
    else 31
  }

  function DaysInYear(y: int): int
  {
    if IsLeap(y) then 366 else 365
  }

  /** The dates `datetime.date` accepts: years `MINYEAR` (1) to `MAXYEAR` (9999), and a day within its month. */
  predicate Valid(d: Date)
  {
    1 <= d.year <= 9999 && 1 <= d.month <= 12 && 1 <= d.day <= DaysInMonth(d.year, d.month)
  }

  /** Days in the years before `y`, counting from year 1. */
  function DaysBeforeYear(y: int): int
    requires y >= 1
  {
    var p := y - 1;
    p * 365 + p / 4 - p / 100 + p / 400
  }

  /** Days in the year before the first of month `m`. */
  function DaysBeforeMonth(y: int, m: int): int
    requires 1 <= m <= 12
  {
    var table := [0, 31, 59, 90, 120, 151, 181, 212, 243, 273, 304, 334];
    table[m - 1] + (if m > 2 && IsLeap(y) then 1 else 0)
  }

  /** `date.toordinal()`: 0001-01-01 is day 1. */
  function Ordinal(d: Date): int
    requires Valid(d)
  {
    DaysBeforeYear(d.year) + DaysBeforeMonth(d.year, d.month) + d.day
  }

  /** `a < b` on dates: year, then month, then day. */
  predicate Before(a: Date, b: Date)
  {
    a.year < b.year
    || (a.year == b.year && a.month < b.month)
    || (a.year == b.year && a.month == b.month && a.day < b.day)
  }

  // ---------------------------------------------------------------------
  // Day counting
  // ---------------------------------------------------------------------

  /** The first of the next month comes right after the last day of this one. */
  lemma MonthStep(y: int, m: int)
    requires 1 <= m < 12
    ensures DaysBeforeMonth(y, m + 1) == DaysBeforeMonth(y, m) + DaysInMonth(y, m)
  {
  }

  lemma LastMonth(y: int)
    ensures DaysBeforeMonth(y, 12) + DaysInMonth(y, 12) == DaysInYear(y)
  {
  }

  /** Each year contributes 366 days when it is a leap year and 365 otherwise. */
  lemma YearStep(y: int)
    requires y >= 1
    ensures DaysBeforeYear(y + 1) == DaysBeforeYear(y) + DaysInYear(y)
  {
    var p := y - 1;
    Step4(p);
    Step100(p);
    Step400(p);
  }

  lemma Step4(p: int)
    ensures (p + 1) / 4 == p / 4 + (if (p + 1) % 4 == 0 then 1 else 0)
  {
  }

  lemma Step100(p: int)
    ensures (p + 1) / 100 == p / 100 + (if (p + 1) % 100 == 0 then 1 else 0)
  {
  }

  lemma Step400(p: int)
    ensures (p + 1) / 400 == p / 400 + (if (p + 1) % 400 == 0 then 1 else 0)
  {
  }

  lemma {:induction false} MonthsIncrease(y: int, m: int, n: int)
    requires 1 <= m < n <= 12
    ensures DaysBeforeMonth(y, m) + DaysInMonth(y, m) <= DaysBeforeMonth(y, n)
    decreases n - m
  {
    MonthStep(y, m);
    if m + 1 < n {
      MonthsIncrease(y, m + 1, n);
    }
  }

  lemma {:induction false} YearsIncrease(y: int, z: int)
    requires 1 <= y < z
    ensures DaysBeforeYear(y) + DaysInYear(y) <= DaysBeforeYear(z)
    decreases z - y
  {
    YearStep(y);
    if y + 1 < z {
      YearsIncrease(y + 1, z);
    }
  }

  /** A valid date's day of the year is between 1 and the length of its year. */
  lemma DayOfYearBound(d: Date)
    requires Valid(d)
    ensures 1 <= DaysBeforeMonth(d.year, d.month) + d.day <= DaysInYear(d.year)
  {
    if d.month < 12 {
      MonthsIncrease(d.year, d.month, 12);
    }
    LastMonth(d.year);
  }

  /** Comparing dates is comparing ordinals, in both directions. */
  lemma OrdinalOrder(a: Date, b: Date)
    requires Valid(a) && Valid(b)
    ensures Before(a, b) <==> Ordinal(a) < Ordinal(b)
    ensures a == b <==> Ordinal(a) == Ordinal(b)
  {
    if Before(a, b) {
      BeforeOrdinal(a, b);
    } else if Before(b, a) {
      BeforeOrdinal(b, a);
    }
  }

  lemma BeforeOrdinal(a: Date, b: Date)
    requires Valid(a) && Valid(b) && Before(a, b)
    ensures Ordinal(a) < Ordinal(b)
  {
    if a.year < b.year {
      DayOfYearBound(a);
      YearsIncrease(a.year, b.year);
    } else if a.month < b.month {
      MonthsIncrease(a.year, a.month, b.month);
    }
  }

  // ---------------------------------------------------------------------
  // strptime(s, "%Y%m%d")
  // ---------------------------------------------------------------------

  /**
   * `datetime.strptime(s, "%Y%m%d").date()` for the eight-digit strings the
   * performance endpoint returns; `None` is the `ValueError` for any other
   * string or for a day the calendar does not have.
   */
  function ParseYmd(s: string): (r: Option<Date>)
    ensures r.Some? ==> Valid(r.value) && |s| == 8 && AllDigits(s)
  {
    if |s| == 8 && AllDigits(s) then
      var d := Date(DigitsValue(s[..4]), DigitsValue(s[4..6]), DigitsValue(s[6..]));
      if Valid(d) then Some(d) else None
    else None
  }

  lemma DigitsOfOne(c: char)
    requires IsDigit(c)
    ensures DigitsValue([c]) == DigitValue(c)
  {
    assert [c][..0] == [];
  }

  lemma Shift(x: int, p: int, d: int, e: int)
    ensures (x * p + d) * 10 + e == x * (10 * p) + (d * 10 + e)
  {
  }

  lemma {:induction false} DigitsValueConcat(a: string, b: string)
    requires AllDigits(a) && AllDigits(b)
    ensures AllDigits(a + b)
    ensures DigitsValue(a + b) == DigitsValue(a) * Pow10(|b|) + DigitsValue(b)
    decreases |b|
  {
    if b == [] {
      assert a + b == a;
    } else {
      var b' := b[..|b| - 1];
      var e := DigitValue(b[|b| - 1]);
      assert (a + b)[..|a + b| - 1] == a + b';
      assert (a + b)[|a + b| - 1] == b[|b| - 1];
      DigitsValueConcat(a, b');
      assert DigitsValue(a + b) == DigitsValue(a + b') * 10 + e;
      assert DigitsValue(b) == DigitsValue(b') * 10 + e;
      assert Pow10(|b|) == 10 * Pow10(|b'|);
      Shift(DigitsValue(a), Pow10(|b'|), DigitsValue(b'), e);
    }
  }

  lemma {:induction false} DigitsBound(s: string)
    requires AllDigits(s)
    ensures DigitsValue(s) < Pow10(|s|)
  {
    if s != [] {
      DigitsBound(s[..|s| - 1]);
    }
  }

  lemma LeadingDigit(x: int, y: int, p: int, u: int, v: int)
    requires 0 <= u < p && 0 <= v < p && x < y
    ensures x * p + u < y * p + v
  {
    var k := y - x - 1;
    assert y * p == x * p + k * p + p;
    assert k * p >= 0;
  }

  /** A digit string is its first digit times a power of ten plus the rest. */
  lemma FirstDigit(a: string)
    requires a != [] && AllDigits(a)
    ensures DigitsValue(a) == DigitValue(a[0]) * Pow10(|a| - 1) + DigitsValue(a[1..])
    ensures DigitsValue(a[1..]) < Pow10(|a| - 1)
  {
    DigitsValueConcat([a[0]], a[1..]);
    assert [a[0]] + a[1..] == a;
    DigitsOfOne(a[0]);
    DigitsBound(a[1..]);
  }

  /** On digit strings of one length, code-point order is numeric order. */
  lemma {:induction false} LexIsNumeric(a: string, b: string)
    requires |a| == |b| && AllDigits(a) && AllDigits(b)
    ensures LexLess(a, b) <==> DigitsValue(a) < DigitsValue(b)
    decreases |a|
  {
    if a != [] {
      var p := Pow10(|a| - 1);
      FirstDigit(a);
      FirstDigit(b);
      var x := DigitValue(a[0]);
      var y := DigitValue(b[0]);
      if x < y {
        LeadingDigit(x, y, p, DigitsValue(a[1..]), DigitsValue(b[1..]));
      } else if y < x {
        LeadingDigit(y, x, p, DigitsValue(b[1..]), DigitsValue(a[1..]));
      } else {
        LexIsNumeric(a[1..], b[1..]);
      }
    }
  }

  /** The number an eight-digit date string denotes is year, month and day in positional form. */
  lemma YmdValue(s: string)
    requires |s| == 8 && AllDigits(s)
    ensures DigitsValue(s) == DigitsValue(s[..4]) * 10000 + DigitsValue(s[4..6]) * 100 + DigitsValue(s[6..])
  {
    assert s[..4] + s[4..6] == s[..6];
    assert s[..6] + s[6..] == s;
    DigitsValueConcat(s[..4], s[4..6]);
    DigitsValueConcat(s[..6], s[6..]);
    assert Pow10(2) == 100;
  }

  /**
   * `sorted` on the date strings is chronological order: for two strings
   * `strptime` accepts, the code-point order agrees with the calendar order.
   */
  lemma SortedIsChronological(a: string, b: string)
    requires ParseYmd(a).Some? && ParseYmd(b).Some?
    ensures LexLess(a, b) <==> Before(ParseYmd(a).value, ParseYmd(b).value)
    ensures LexLess(a, b) <==> Ordinal(ParseYmd(a).value) < Ordinal(ParseYmd(b).value)
  {
    var da := ParseYmd(a).value;
    var db := ParseYmd(b).value;
    LexIsNumeric(a, b);
    YmdValue(a);
    YmdValue(b);
    PositionalOrder(da, db);
    OrdinalOrder(da, db);
  }

  lemma PositionalOrder(a: Date, b: Date)
    requires Valid(a) && Valid(b)
    ensures Before(a, b) <==> a.year * 10000 + a.month * 100 + a.day < b.year * 10000 + b.month * 100 + b.day
  {
    var va := a.year * 10000 + a.month * 100 + a.day;
    var vb := b.year * 10000 + b.month * 100 + b.day;
    if a.year < b.year {
      assert va < (a.year + 1) * 10000 <= vb;
    } else if b.year < a.year {
      assert vb < (b.year + 1) * 10000 <= va;
    } else if a.month < b.month {
      assert va < a.year * 10000 + (a.month + 1) * 100 <= vb;
    } else if b.month < a.month {
      assert vb < b.year * 10000 + (b.month + 1) * 100 <= va;
    }
  }
}
