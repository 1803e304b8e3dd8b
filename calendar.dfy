/** The proleptic Gregorian calendar as Python's `datetime` module uses it:
    years 1 to 9999, day number ("ordinal") 1 is 0001-01-01. */
module Calendar {

  import opened Outcomes

  const MinYear := 1
  const MaxYear := 9999
  /** Ordinal of 9999-12-31, the last day a Python `date` can hold. */
  const MaxOrdinal := 3652059

  datatype Date = Date(year: int, month: int, day: int)

  /** A naive (time-zone-free) `datetime`. */
  datatype DateTime = DateTime(date: Date, hour: int, minute: int, second: int, microsecond: int)

  predicate IsLeapYear(y: int) {
    y % 4 == 0 && (y % 100 != 0 || y % 400 == 0)
  }

  function DaysInYear(y: int): int {
    if IsLeapYear(y) then 366 else 365
  }

  function DaysInMonth(y: int, m: int): (n: int)
    requires 1 <= m <= 12
    ensures 28 <= n <= 31
    ensures m == 2 ==> (n == 29 <==> IsLeapYear(y))
  {
    if m == 2 then (if IsLeapYear(y) then 29 else 28)
    else if m == 4 || m == 6 || m == 9 || m == 11 then 30
    else 31
  }

  /** A month/day combination that exists in year `d.year`, whatever the year. */
  predicate IsCalendarDate(d: Date) {
    1 <= d.month <= 12 && 1 <= d.day <= DaysInMonth(d.year, d.month)
  }

  /** A value a Python `date` can hold. */
  predicate ValidDate(d: Date) {
    MinYear <= d.year <= MaxYear && IsCalendarDate(d)
  }

  predicate ValidTime(hour: int, minute: int, second: int, microsecond: int) {
    0 <= hour < 24 && 0 <= minute < 60 && 0 <= second < 60 && 0 <= microsecond < 1000000
  }

  predicate ValidDateTime(t: DateTime) {
    ValidDate(t.date) && ValidTime(t.hour, t.minute, t.second, t.microsecond)
  }

  /** `datetime.combine(d, datetime.min.time())`. */
  function Midnight(d: Date): (t: DateTime)
    ensures t.date == d && ValidTime(t.hour, t.minute, t.second, t.microsecond)
    ensures t.hour + t.minute + t.second + t.microsecond == 0
    ensures ValidDate(d) ==> ValidDateTime(t)
  {
    DateTime(d, 0, 0, 0, 0)
  }

  /** Days in the years before `y` (the closed form of `_days_before_year`). */
  function DaysBeforeYear(y: int): int {
    var p := y - 1;
    p * 365 + p / 4 - p / 100 + p / 400
  }

  /** Days in the months of year `y` before month `m` (`_days_before_month`). */
  function DaysBeforeMonth(y: int, m: int): int
    requires 1 <= m <= 12
  {
    var table := [0, 31, 59, 90, 120, 151, 181, 212, 243, 273, 304, 334];
    table[m - 1] + (if m > 2 && IsLeapYear(y) then 1 else 0)
  }

  /** Days-from-civil: the day number of `d`, with 0001-01-01 as day 1 (`date.toordinal`). */
  function Ordinal(d: Date): int
    requires 1 <= d.month <= 12
  {
    DaysBeforeYear(d.year) + DaysBeforeMonth(d.year, d.month) + d.day
  }

  /** `d` plus `n` days, walking forward a month at a time. */
  function AddDays(d: Date, n: nat): (r: Date)
    requires IsCalendarDate(d)
    ensures IsCalendarDate(r)
    ensures r.year >= d.year
    decreases n
  {
    var left := DaysInMonth(d.year, d.month) - d.day;
    if n <= left then Date(d.year, d.month, d.day + n)
    else if d.month == 12 then AddDays(Date(d.year + 1, 1, 1), n - left - 1)
    else AddDays(Date(d.year, d.month + 1, 1), n - left - 1)
  }

  /** `t + timedelta(days=n)`: the time of day is kept; a date past 9999-12-31
      is Python's OverflowError, here `None`. */
  function AddDaysToDateTime(t: DateTime, n: nat): (r: Option<DateTime>)
    requires ValidDateTime(t)
    ensures r.Some? ==> ValidDateTime(r.value)
    ensures r.Some? ==> r.value == t.(date := r.value.date)
  {
    var d := AddDays(t.date, n);
    if d.year <= MaxYear then Some(t.(date := d)) else None
  }

  // ---------------------------------------------------------------------
  // The ordinal counts days

  /** Stepping `y` by one moves `y / k` by one exactly at multiples of `k`. */
  lemma QuotientStep(y: int, k: int)
    requires k == 4 || k == 100 || k == 400
    ensures y / k - (y - 1) / k == (if y % k == 0 then 1 else 0)
  {
    var q, r := (y - 1) / k, (y - 1) % k;
    assert y == k * q + r + 1;
    if r == k - 1 {
      assert y == k * (q + 1) + 0;
    } else {
      assert y == k * q + (r + 1);
    }
  }

  /** Each year contributes exactly its own length to the ordinal. */
  lemma DaysBeforeNextYear(y: int)
    ensures DaysBeforeYear(y + 1) == DaysBeforeYear(y) + DaysInYear(y)
  {
    QuotientStep(y, 4);
    QuotientStep(y, 100);
    QuotientStep(y, 400);
    assert y * 365 == (y - 1) * 365 + 365;
    assert y % 400 == 0 ==> y % 100 == 0;
    assert y % 100 == 0 ==> y % 4 == 0;
  }

  lemma DaysBeforeNextMonth(y: int, m: int)
    requires 1 <= m < 12
    ensures DaysBeforeMonth(y, m + 1) == DaysBeforeMonth(y, m) + DaysInMonth(y, m)
  {
  }

  lemma DecemberEndsYear(y: int)
    ensures DaysBeforeMonth(y, 12) + DaysInMonth(y, 12) == DaysInYear(y)
  {
  }

  /** Adding `n` days moves the day number forward by exactly `n`. */
  lemma {:induction false} AddDaysOrdinal(d: Date, n: nat)
    requires IsCalendarDate(d)
    ensures Ordinal(AddDays(d, n)) == Ordinal(d) + n
    decreases n
  {
    var left := DaysInMonth(d.year, d.month) - d.day;
    if n <= left {
    } else if d.month == 12 {
      DecemberEndsYear(d.year);
      DaysBeforeNextYear(d.year);
      AddDaysOrdinal(Date(d.year + 1, 1, 1), n - left - 1);
    } else {
      DaysBeforeNextMonth(d.year, d.month);
      AddDaysOrdinal(Date(d.year, d.month + 1, 1), n - left - 1);
    }
  }

  lemma {:induction false} DaysBeforeYearMonotone(a: int, b: int)
    requires a <= b
    ensures DaysBeforeYear(a) + 365 * (b - a) <= DaysBeforeYear(b)
    decreases b - a
  {
    if a < b {
      DaysBeforeYearMonotone(a, b - 1);
      DaysBeforeNextYear(b - 1);
    }
  }

  /** A date's day number lies inside its own year. */
  lemma OrdinalWithinYear(d: Date)
    requires IsCalendarDate(d)
    ensures DaysBeforeYear(d.year) < Ordinal(d) <= DaysBeforeYear(d.year + 1)
  {
    DaysBeforeNextYear(d.year);
  }

  /** Days-from-civil is one-to-one on calendar dates, so a date is
      determined by its day number. */
  lemma OrdinalInjective(a: Date, b: Date)
    requires IsCalendarDate(a) && IsCalendarDate(b)
    requires Ordinal(a) == Ordinal(b)
    ensures a == b
  {
    OrdinalWithinYear(a);
    OrdinalWithinYear(b);
    if a.year < b.year {
      DaysBeforeYearMonotone(a.year + 1, b.year);
      assert false;
    } else if b.year < a.year {
      DaysBeforeYearMonotone(b.year + 1, a.year);
      assert false;
    }
    if a.month < b.month {
      DaysBeforeMonthGap(a.year, a.month, b.month);
      assert false;
    } else if b.month < a.month {
      DaysBeforeMonthGap(a.year, b.month, a.month);
      assert false;
    }
  }

  lemma {:induction false} DaysBeforeMonthGap(y: int, m: int, k: int)
    requires 1 <= m < k <= 12
    ensures DaysBeforeMonth(y, m) + DaysInMonth(y, m) <= DaysBeforeMonth(y, k)
    decreases k - m
  {
    DaysBeforeNextMonth(y, m);
    if m + 1 < k {
      DaysBeforeMonthGap(y, m + 1, k);
    }
  }

  /** `AddDays` agrees with the day-number definition of date arithmetic:
      `AddDays(d, n)` is the one calendar date whose day number is `Ordinal(d) + n`. */
  lemma AddDaysIsOrdinalShift(d: Date, n: nat, r: Date)
    requires IsCalendarDate(d) && IsCalendarDate(r)
    ensures r == AddDays(d, n) <==> Ordinal(r) == Ordinal(d) + n
  {
    AddDaysOrdinal(d, n);
    if Ordinal(r) == Ordinal(d) + n {
      OrdinalInjective(r, AddDays(d, n));
    }
  }

  lemma LastDayOrdinal()
    ensures Ordinal(Date(MaxYear, 12, 31)) == MaxOrdinal
    ensures DaysBeforeYear(MaxYear + 1) == MaxOrdinal
  {
  }

  /** A date lies within Python's range exactly when its day number is at most `MaxOrdinal`. */
  lemma InRangeIffOrdinal(d: Date)
    requires IsCalendarDate(d) && d.year >= MinYear
    ensures d.year <= MaxYear <==> Ordinal(d) <= MaxOrdinal
  {
    OrdinalWithinYear(d);
    LastDayOrdinal();
    if d.year <= MaxYear {
      DaysBeforeYearMonotone(d.year + 1, MaxYear + 1);
    } else {
      DaysBeforeYearMonotone(MaxYear + 1, d.year);
    }
  }

  /** `t + timedelta(days=n)` overflows exactly when the day number would pass
      `MaxOrdinal`; otherwise its date is `n` days later and its time is unchanged. */
  lemma AddDaysToDateTimeSpec(t: DateTime, n: nat)
    requires ValidDateTime(t)
    ensures AddDaysToDateTime(t, n).Some? <==> Ordinal(t.date) + n <= MaxOrdinal
    ensures AddDaysToDateTime(t, n).Some? ==>
      Ordinal(AddDaysToDateTime(t, n).value.date) == Ordinal(t.date) + n
  {
    AddDaysOrdinal(t.date, n);
    InRangeIffOrdinal(AddDays(t.date, n));
  }

  /** The worked example: 2024 is a leap year, so 180 days after
      2024-01-01 is 2024-06-29. */
  lemma NewYear2024Plus180()
    ensures AddDays(Date(2024, 1, 1), 180) == Date(2024, 6, 29)
  {
  }
}
