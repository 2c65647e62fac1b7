/**
 * The parts of Python's `datetime`, `calendar` and `dateutil.relativedelta`
 * that the balance reports rely on: proleptic Gregorian dates between years
 * 1 and 9999, month lengths with the leap-year rule, shifting a month back by
 * whole months, and the ISO text `YYYY-MM-DD` that dates are stored as.
 */
module Calendar {
  import opened Text

  const MinYear := 1
  const MaxYear := 9999

  datatype Date = Date(year: int, month: int, day: int)

  predicate IsLeapYear(y: int) {
    y % 4 == 0 && (y % 100 != 0 || y % 400 == 0)
  }

  /** Number of days of month `m` of year `y` (`calendar.monthrange(y, m)[1]`). */
  function DaysInMonth(y: int, m: int): (n: int)
    requires 1 <= m <= 12
    ensures 28 <= n <= 31
    ensures m == 2 ==> (n == 29 <==> IsLeapYear(y))
  {
    if m == 2 then (if IsLeapYear(y) then 29 else 28)
    else if m == 4 || m == 6 || m == 9 || m == 11 then 30
    else 31
  }

  /** Days in the months of year `y` before month `m`. */
  function DaysBeforeMonth(y: int, m: int): nat
    requires 1 <= m <= 13
  {
    if m == 1 then 0 else DaysBeforeMonth(y, m - 1) + DaysInMonth(y, m - 1)
  }

  /** The month lengths add up to the length of the Gregorian year. */
  lemma DaysInYear(y: int)
    ensures DaysBeforeMonth(y, 13) == if IsLeapYear(y) then 366 else 365
  {
    var feb := DaysInMonth(y, 2);
    assert DaysBeforeMonth(y, 2) == 31;
    assert DaysBeforeMonth(y, 3) == 31 + feb;
    assert DaysBeforeMonth(y, 5) == 92 + feb;
    assert DaysBeforeMonth(y, 7) == 153 + feb;
    assert DaysBeforeMonth(y, 9) == 215 + feb;
    assert DaysBeforeMonth(y, 11) == 276 + feb;
  }

  /** What Python's `date` accepts. */
  predicate ValidDate(d: Date) {
    MinYear <= d.year <= MaxYear && 1 <= d.month <= 12 && 1 <= d.day <= DaysInMonth(d.year, d.month)
  }

  /** Chronological order (`<` on `date`). */
  predicate Before(a: Date, b: Date) {
    a.year < b.year || (a.year == b.year && (a.month < b.month || (a.month == b.month && a.day < b.day)))
  }

  /** `lo <= d <= hi` on dates. */
  predicate InRange(d: Date, lo: Date, hi: Date) {
    !Before(d, lo) && !Before(hi, d)
  }

  /** Months counted from January of year 0; consecutive months have consecutive indexes. */
  function MonthIndex(y: int, m: int): int {
    y * 12 + (m - 1)
  }

  /**
   * The year and month of `date - relativedelta(months=r)`: `relativedelta`
   * splits `r` into `r / 12` years and `r % 12` months, subtracts both, and
   * borrows a year when the month drops below 1.
   */
  function ShiftMonthsBack(year: int, month: int, r: nat): (ym: (int, int))
    requires 1 <= month <= 12
    ensures 1 <= ym.1 <= 12
    ensures MonthIndex(ym.0, ym.1) == MonthIndex(year, month) - r
  {
    var years, months := r / 12, r % 12;
    var y, m := year - years, month - months;
    if months != 0 && m < 1 then (y - 1, m + 12) else (y, m)
  }

  /** `str(d)`: `YYYY-MM-DD`, each part zero-padded. */
  function DateText(d: Date): (s: string)
    requires ValidDate(d)
    ensures |s| == 10 && s[4] == '-' && s[7] == '-'
  {
    FixedDigits(d.year, 4) + "-" + FixedDigits(d.month, 2) + "-" + FixedDigits(d.day, 2)
  }

  lemma ValidDateWidths(d: Date)
    requires ValidDate(d)
    ensures d.year < Pow10(4) && d.month < Pow10(2) && d.day < Pow10(2)
  {
    assert Pow10(2) == 100 && Pow10(4) == 10000 by {
      assert Pow10(1) == 10;
      assert Pow10(3) == 1000;
    }
  }

  /** Two dash-separated texts with equally long heads compare head first, then tail. */
  lemma DashJoin(x1: string, s1: string, x2: string, s2: string)
    requires |x1| == |x2|
    ensures LexLess(x1 + "-" + s1, x2 + "-" + s2) <==> LexLess(x1, x2) || (x1 == x2 && LexLess(s1, s2))
    ensures x1 + "-" + s1 == x2 + "-" + s2 <==> x1 == x2 && s1 == s2
  {
    assert x1 + "-" + s1 == x1 + ("-" + s1) && x2 + "-" + s2 == x2 + ("-" + s2);
    LexLessAppend(x1, "-" + s1, x2, "-" + s2);
    LexLessAppend("-", s1, "-", s2);
    assert !LexLess("-", "-");
    if x1 + "-" + s1 == x2 + "-" + s2 {
      assert x1 == (x1 + "-" + s1)[..|x1|] && x2 == (x2 + "-" + s2)[..|x2|];
      assert s1 == (x1 + "-" + s1)[|x1| + 1..] && s2 == (x2 + "-" + s2)[|x2| + 1..];
    }
  }

  /**
   * Comparing the ISO texts of two valid dates, character by character,
   * orders them exactly as the calendar does, and distinct dates have
   * distinct texts.
   */
  lemma DateTextOrder(a: Date, b: Date)
    requires ValidDate(a) && ValidDate(b)
    ensures LexLess(DateText(a), DateText(b)) <==> Before(a, b)
    ensures DateText(a) == DateText(b) <==> a == b
  {
    ValidDateWidths(a);
    ValidDateWidths(b);
    var ya, ma, da := FixedDigits(a.year, 4), FixedDigits(a.month, 2), FixedDigits(a.day, 2);
    var yb, mb, db := FixedDigits(b.year, 4), FixedDigits(b.month, 2), FixedDigits(b.day, 2);
    FixedDigitsOrder(a.year, b.year, 4);
    FixedDigitsOrder(a.month, b.month, 2);
    FixedDigitsOrder(a.day, b.day, 2);
    DashJoin(ma, da, mb, db);
    assert DateText(a) == ya + "-" + (ma + "-" + da);
    assert DateText(b) == yb + "-" + (mb + "-" + db);
    DashJoin(ya, ma + "-" + da, yb, mb + "-" + db);
  }

  /** Text order of ISO dates: `lo <= s <= hi` as the engine compares text. */
  predicate TextBetween(s: string, lo: string, hi: string) {
    !LexLess(s, lo) && !LexLess(hi, s)
  }

  /** Selecting stored ISO dates by text between two bounds selects exactly the dates in the closed range. */
  lemma TextBetweenIsDateRange(d: Date, lo: Date, hi: Date)
    requires ValidDate(d) && ValidDate(lo) && ValidDate(hi)
    ensures TextBetween(DateText(d), DateText(lo), DateText(hi)) <==> InRange(d, lo, hi)
  {
    DateTextOrder(d, lo);
    DateTextOrder(hi, d);
  }
}
