/** The proleptic Gregorian calendar of Python's `datetime.date`: a date is its
    ordinal, 1 for 0001-01-01 up to 3652059 for 9999-12-31, computed as
    `datetime._ymd2ord` does; `weekday()` is `(ordinal + 6) % 7`, 0 for Monday.
    `ToCivil` recovers year, month and day from an ordinal and is proved to be
    the inverse of `Ordinal`. */
module Calendar {

  const MaxYear := 9999
  /** The ordinal of 9999-12-31, the last date Python represents. */
  const MaxDay := 3652059

  /** A date, as its Python ordinal. */
  type Day = n: int | 1 <= n <= MaxDay witness 1

  predicate IsLeapYear(y: int) {
    y % 4 == 0 && (y % 100 != 0 || y % 400 == 0)
  }

  function DaysInYear(y: int): int {
    if IsLeapYear(y) then 366 else 365
  }

  function DaysInMonth(y: int, m: int): int
    requires 1 <= m <= 12
  {
    if m == 2 then (if IsLeapYear(y) then 29 else 28)
    else if m == 4 || m == 6 || m == 9 || m == 11 then 30
    else 31
  }

  /** `_days_before_month`: the days of the year before the first of month `m`. */
  function DaysBeforeMonth(y: int, m: int): int
    requires 1 <= m <= 12
  {
    [0, 0, 31, 59, 90, 120, 151, 181, 212, 243, 273, 304, 334][m]
      + (if m > 2 && IsLeapYear(y) then 1 else 0)
  }

  /** `_days_before_year`: the days before January 1st of year `y`. */
  function DaysBeforeYear(y: int): int {
    var z := y - 1;
    365 * z + z / 4 - z / 100 + z / 400
  }

  datatype Civil = Civil(year: int, month: int, day: int)

  predicate ValidCivil(c: Civil) {
    1 <= c.year <= MaxYear && 1 <= c.month <= 12 && 1 <= c.day <= DaysInMonth(c.year, c.month)
  }

  /** `_ymd2ord`. */
  function Ordinal(c: Civil): int
    requires 1 <= c.month <= 12
  {
    DaysBeforeYear(c.year) + DaysBeforeMonth(c.year, c.month) + c.day
  }

  /** `date.weekday()`: 0 for Monday up to 6 for Sunday. */
  function Weekday(n: int): int {
    (n + 6) % 7
  }

  /** The Monday that starts the week of `n` (never before 0001-01-01, a Monday). */
  function MondayOf(n: Day): (m: Day)
    ensures Weekday(m) == 0 && m <= n < m + 7
  {
    n - Weekday(n)
  }

  // ---------------------------------------------------------------------------
  // Year and month arithmetic

  lemma YearStep(y: int)
    ensures DaysBeforeYear(y + 1) == DaysBeforeYear(y) + DaysInYear(y)
  {
    DivStep(y, 4);
    DivStep(y, 100);
    DivStep(y, 400);
    if y % 100 == 0 {
      assert y == 4 * (25 * (y / 100));
    }
    if y % 400 == 0 {
      assert y == 100 * (4 * (y / 400));
    }
  }

  /** Stepping from `y - 1` to `y` raises `y / k` by one exactly at a multiple
      of `k`. */
  lemma DivStep(y: int, k: int)
    requires k in {4, 100, 400}
    ensures y / k - (y - 1) / k == if y % k == 0 then 1 else 0
  {
    var q, r := y / k, y % k;
    if r == 0 {
      assert y - 1 == k * (q - 1) + (k - 1);
    } else {
      assert y - 1 == k * q + (r - 1);
    }
  }

  lemma {:induction false} YearsIncrease(a: int, b: int)
    requires a <= b
    ensures DaysBeforeYear(a) + 365 * (b - a) <= DaysBeforeYear(b)
    decreases b - a
  {
    if a < b {
      YearsIncrease(a, b - 1);
      YearStep(b - 1);
    }
  }

  lemma MonthStep(y: int, m: int)
    requires 1 <= m <= 12
    ensures m < 12 ==> DaysBeforeMonth(y, m + 1) == DaysBeforeMonth(y, m) + DaysInMonth(y, m)
    ensures m == 12 ==> DaysBeforeMonth(y, m) + DaysInMonth(y, m) == DaysInYear(y)
  {
  }

  lemma {:induction false} MonthsIncrease(y: int, a: int, b: int)
    requires 1 <= a <= b <= 12
    ensures DaysBeforeMonth(y, a) + 28 * (b - a) <= DaysBeforeMonth(y, b)
    decreases b - a
  {
    if a < b {
      MonthsIncrease(y, a, b - 1);
      MonthStep(y, b - 1);
    }
  }

  lemma MaxDayIsLastDate()
    ensures Ordinal(Civil(MaxYear, 12, 31)) == MaxDay
    ensures DaysBeforeYear(MaxYear + 1) == MaxDay
  {
  }

  // ---------------------------------------------------------------------------
  // From an ordinal back to year, month and day

  /** The year, from `y` on, whose days contain ordinal `n`. */
  function YearOf(n: int, y: int): (r: int)
    requires 1 <= y && DaysBeforeYear(y) < n
    ensures y <= r && DaysBeforeYear(r) < n <= DaysBeforeYear(r + 1)
    decreases n - DaysBeforeYear(y)
  {
    YearStep(y);
    if n <= DaysBeforeYear(y + 1) then y else YearOf(n, y + 1)
  }

  /** The month, from `m` on, whose days contain day `r` of year `y`. */
  function MonthOf(y: int, r: int, m: int): (k: int)
    requires 1 <= m <= 12 && DaysBeforeMonth(y, m) < r <= DaysInYear(y)
    ensures m <= k <= 12 && DaysBeforeMonth(y, k) < r <= DaysBeforeMonth(y, k) + DaysInMonth(y, k)
    decreases 12 - m
  {
    MonthStep(y, m);
    if m == 12 || r <= DaysBeforeMonth(y, m) + DaysInMonth(y, m) then m else MonthOf(y, r, m + 1)
  }

  /** Year, month and day of an ordinal (`date.fromordinal`). */
  function ToCivil(n: Day): (c: Civil)
    ensures ValidCivil(c) && Ordinal(c) == n
  {
    var y := YearOf(n, 1);
    assert y <= MaxYear by {
      if y > MaxYear {
        YearsIncrease(MaxYear + 1, y);
        MaxDayIsLastDate();
      }
    }
    YearStep(y);
    var m := MonthOf(y, n - DaysBeforeYear(y), 1);
    Civil(y, m, n - DaysBeforeYear(y) - DaysBeforeMonth(y, m))
  }

  /** A valid date lies between 0001-01-01 and 9999-12-31. */
  lemma OrdinalInRange(c: Civil)
    requires ValidCivil(c)
    ensures 1 <= Ordinal(c) <= MaxDay
    ensures DaysBeforeYear(c.year) < Ordinal(c) <= DaysBeforeYear(c.year + 1)
  {
    MonthStep(c.year, c.month);
    MonthsIncrease(c.year, c.month, 12);
    MonthStep(c.year, 12);
    YearStep(c.year);
    YearsIncrease(1, c.year);
    YearsIncrease(c.year + 1, MaxYear + 1);
    MaxDayIsLastDate();
  }

  lemma {:induction false} YearUnique(n: int, a: int, b: int)
    requires DaysBeforeYear(a) < n <= DaysBeforeYear(a + 1)
    requires DaysBeforeYear(b) < n <= DaysBeforeYear(b + 1)
    ensures a == b
  {
    if a < b {
      YearsIncrease(a + 1, b);
    } else if b < a {
      YearsIncrease(b + 1, a);
    }
  }

  lemma {:induction false} MonthUnique(y: int, r: int, a: int, b: int)
    requires 1 <= a <= 12 && 1 <= b <= 12
    requires DaysBeforeMonth(y, a) < r <= DaysBeforeMonth(y, a) + DaysInMonth(y, a)
    requires DaysBeforeMonth(y, b) < r <= DaysBeforeMonth(y, b) + DaysInMonth(y, b)
    ensures a == b
  {
    if a < b {
      MonthStep(y, a);
      MonthsIncrease(y, a + 1, b);
    } else if b < a {
      MonthStep(y, b);
      MonthsIncrease(y, b + 1, a);
    }
  }

  /** Ordinals are a bijection: converting a valid date to its ordinal and back
      gives the same year, month and day. */
  lemma {:induction false} CivilRoundTrip(c: Civil)
    requires ValidCivil(c)
    ensures 1 <= Ordinal(c) <= MaxDay && ToCivil(Ordinal(c)) == c
  {
    OrdinalInRange(c);
    var n := Ordinal(c);
    var d := ToCivil(n);
    OrdinalInRange(d);
    YearUnique(n, c.year, d.year);
    MonthUnique(c.year, n - DaysBeforeYear(c.year), c.month, d.month);
  }

  /** Two valid dates have the same ordinal only when they are the same date. */
  lemma OrdinalInjective(c: Civil, d: Civil)
    requires ValidCivil(c) && ValidCivil(d) && Ordinal(c) == Ordinal(d)
    ensures c == d
  {
    CivilRoundTrip(c);
    CivilRoundTrip(d);
  }

  /** Calendar order: year first, then month, then day. */
  predicate CivilBefore(c: Civil, d: Civil) {
    c.year < d.year
    || (c.year == d.year && c.month < d.month)
    || (c.year == d.year && c.month == d.month && c.day < d.day)
  }

  /** Comparing ordinals is comparing dates in calendar order, so ordering dates
      by value agrees with the numeric value of their YYYYMMDD form. */
  lemma {:induction false} OrdinalOrder(c: Civil, d: Civil)
    requires ValidCivil(c) && ValidCivil(d)
    ensures Ordinal(c) < Ordinal(d) <==> CivilBefore(c, d)
  {
    OrdinalInRange(c);
    OrdinalInRange(d);
    if c.year < d.year {
      YearsIncrease(c.year + 1, d.year);
    } else if d.year < c.year {
      YearsIncrease(d.year + 1, c.year);
    } else if c.month < d.month {
      MonthStep(c.year, c.month);
      MonthsIncrease(c.year, c.month + 1, d.month);
    } else if d.month < c.month {
      MonthStep(c.year, d.month);
      MonthsIncrease(c.year, d.month + 1, c.month);
    }
  }

  /** 0001-01-01 is a Monday and every seven days the weekday repeats. */
  lemma WeekdayFacts(n: int, k: int)
    ensures Weekday(1) == 0
    ensures 0 <= Weekday(n) <= 6
    ensures Weekday(n + 7 * k) == Weekday(n)
  {
  }
}
