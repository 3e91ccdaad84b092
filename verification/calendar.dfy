/** The proleptic Gregorian calendar of Python's `datetime.date`, with the two pieces of
    date arithmetic the aggregation run uses: `relativedelta(months=k)` and the step of
    one day. */
module Calendar {
  import opened Wrappers

  /** A calendar date (Python's `date`); only `Valid` values are ever built by Python. */
  datatype Date = Date(year: int, month: int, day: int)

  /** The errors Python raises when date arithmetic leaves years 1..9999:
      `ValueError` from `relativedelta` and `OverflowError` from subtracting days. */
  datatype DateError = YearOutOfRange | DateOverflow

  const MinYear: int := 1
  const MaxYear: int := 9999

  predicate IsLeapYear(y: int) {
    y % 4 == 0 && (y % 100 != 0 || y % 400 == 0)
  }

  function DaysInMonth(y: int, m: int): (n: int)
    requires 1 <= m <= 12
    ensures 28 <= n <= 31
    ensures m == 2 ==> (n == 29 <==> IsLeapYear(y))
  {
    if m == 2 then (if IsLeapYear(y) then 29 else 28)
    else if m == 4 || m == 6 || m == 9 || m == 11 then 30
    else 31
  }

  predicate Valid(d: Date) {
    && MinYear <= d.year <= MaxYear
    && 1 <= d.month <= 12
    && 1 <= d.day <= DaysInMonth(d.year, d.month)
  }

  /** Number of whole months from January of year 0 to the month of `d`. */
  function MonthIndex(d: Date): int {
    d.year * 12 + d.month - 1
  }

  /** Strict chronological order. */
  predicate Before(a: Date, b: Date) {
    a.year < b.year
    || (a.year == b.year && a.month < b.month)
    || (a.year == b.year && a.month == b.month && a.day < b.day)
  }

  lemma EarlierMonthIsBefore(a: Date, b: Date)
    requires Valid(a) && Valid(b)
    requires MonthIndex(a) < MonthIndex(b)
    ensures Before(a, b)
  {
  }

  /** The last calendar day of the month `mi` months after January of year 0. */
  function LastDayOfMonthIndex(mi: int): (d: Date)
    requires 12 * MinYear <= mi < 12 * (MaxYear + 1)
    ensures Valid(d) && MonthIndex(d) == mi
    ensures d.day == DaysInMonth(d.year, d.month)
  {
    Date(mi / 12, mi % 12 + 1, DaysInMonth(mi / 12, mi % 12 + 1))
  }

  /** `d.replace(day=1)` */
  function FirstOfMonth(d: Date): (f: Date)
    requires Valid(d)
    ensures Valid(f) && f.day == 1
    ensures MonthIndex(f) == MonthIndex(d)
    ensures !Before(d, f)
  {
    d.(day := 1)
  }

  function Min(a: int, b: int): int {
    if a <= b then a else b
  }

  /** `d - relativedelta(months=k)`: moves the month, keeps the day clamped to the
      length of the target month, and fails when the year leaves 1..9999. */
  function SubtractMonths(d: Date, k: int): (r: Result<Date, DateError>)
    requires Valid(d)
    ensures r.Success? <==> 12 * MinYear <= MonthIndex(d) - k < 12 * (MaxYear + 1)
    ensures r.Success? ==> Valid(r.value) && MonthIndex(r.value) == MonthIndex(d) - k
    ensures r.Success? ==> r.value.day == Min(d.day, DaysInMonth(r.value.year, r.value.month))
    ensures r.Failure? ==> r.error == YearOutOfRange
  {
    var mi := MonthIndex(d) - k;
    var y := mi / 12;
    var m := mi % 12 + 1;
    if y < MinYear || y > MaxYear then Failure(YearOutOfRange)
    else Success(Date(y, m, Min(d.day, DaysInMonth(y, m))))
  }

  /** The day after `d`; fails after 9999-12-31 as `date + timedelta(days=1)` does. */
  function NextDay(d: Date): Result<Date, DateError>
    requires Valid(d)
  {
    if d.day < DaysInMonth(d.year, d.month) then Success(d.(day := d.day + 1))
    else if d.month < 12 then Success(Date(d.year, d.month + 1, 1))
    else if d.year < MaxYear then Success(Date(d.year + 1, 1, 1))
    else Failure(DateOverflow)
  }

  /** The day before `d` (`d - relativedelta(days=1)`); fails before 0001-01-01. */
  function DayBefore(d: Date): Result<Date, DateError>
    requires Valid(d)
  {
    if d.day > 1 then Success(d.(day := d.day - 1))
    else if d.month > 1 then Success(Date(d.year, d.month - 1, DaysInMonth(d.year, d.month - 1)))
    else if d.year > MinYear then Success(Date(d.year - 1, 12, 31))
    else Failure(DateOverflow)
  }

  /** `DayBefore` and `NextDay` are inverse steps on valid dates, and each fails exactly at
      its end of the calendar. */
  lemma DayBeforeInvertsNextDay(d: Date)
    requires Valid(d)
    ensures DayBefore(d).Success? <==> d != Date(MinYear, 1, 1)
    ensures NextDay(d).Success? <==> d != Date(MaxYear, 12, 31)
    ensures DayBefore(d).Success? ==>
      Valid(DayBefore(d).value) && NextDay(DayBefore(d).value) == Success(d)
    ensures NextDay(d).Success? ==>
      Valid(NextDay(d).value) && DayBefore(NextDay(d).value) == Success(d)
  {
  }

  /** The first of a month minus one day is the last day of the previous month; only
      0001-01-01 has no day before it. */
  lemma DayBeforeFirstIsMonthEnd(f: Date)
    requires Valid(f) && f.day == 1
    ensures DayBefore(f).Success? <==> MonthIndex(f) > 12 * MinYear
    ensures DayBefore(f).Success? ==> DayBefore(f).value == LastDayOfMonthIndex(MonthIndex(f) - 1)
    ensures DayBefore(f).Failure? ==> DayBefore(f).error == DateOverflow
  {
  }

  function DaysBeforeYear(y: int): int {
    var p := y - 1;
    365 * p + p / 4 - p / 100 + p / 400
  }

  function DaysBeforeMonth(y: int, m: int): int
    requires 1 <= m <= 13
    decreases m
  {
    if m == 1 then 0 else DaysBeforeMonth(y, m - 1) + DaysInMonth(y, m - 1)
  }

  /** `date.toordinal()`: 0001-01-01 is day 1. */
  function Ordinal(d: Date): int
    requires Valid(d)
  {
    DaysBeforeYear(d.year) + DaysBeforeMonth(d.year, d.month) + d.day
  }

  /** `date.weekday()`: Monday is 0 and Sunday is 6; 0001-01-01 was a Monday. */
  function Weekday(d: Date): (w: int)
    requires Valid(d)
    ensures 0 <= w < 7
  {
    (Ordinal(d) + 6) % 7
  }

  const Saturday: int := 5

  function YearLength(y: int): int {
    if IsLeapYear(y) then 366 else 365
  }

  lemma DaysBeforeNextYear(y: int)
    requires y >= MinYear
    ensures DaysBeforeYear(y + 1) == DaysBeforeYear(y) + YearLength(y)
  {
    MultiplesStep4(y);
    MultiplesStep100(y);
    MultiplesStep400(y);
  }

  /** Going from `y - 1` to `y` passes one more multiple of 4 exactly when 4 divides `y`;
      likewise for 100 and 400 below. */
  lemma MultiplesStep4(y: int)
    ensures y / 4 == (y - 1) / 4 + (if y % 4 == 0 then 1 else 0)
  {
  }

  lemma MultiplesStep100(y: int)
    ensures y / 100 == (y - 1) / 100 + (if y % 100 == 0 then 1 else 0)
    ensures y % 100 == 0 ==> y % 4 == 0
  {
  }

  lemma MultiplesStep400(y: int)
    ensures y / 400 == (y - 1) / 400 + (if y % 400 == 0 then 1 else 0)
    ensures y % 400 == 0 ==> y % 100 == 0
  {
  }

  lemma MonthsFillYear(y: int)
    ensures DaysBeforeMonth(y, 13) == YearLength(y)
  {
  }

  /** The ordinal of the next day is one more. */
  lemma NextDayOrdinal(d: Date)
    requires Valid(d) && d != Date(MaxYear, 12, 31)
    ensures NextDay(d).Success? && Valid(NextDay(d).value)
    ensures Ordinal(NextDay(d).value) == Ordinal(d) + 1
  {
    DayBeforeInvertsNextDay(d);
    var n := NextDay(d).value;
    if d.day < DaysInMonth(d.year, d.month) {
      assert n == d.(day := d.day + 1);
    } else if d.month < 12 {
      assert n == Date(d.year, d.month + 1, 1);
      assert DaysBeforeMonth(d.year, d.month + 1) == DaysBeforeMonth(d.year, d.month) + d.day;
    } else {
      assert n == Date(d.year + 1, 1, 1);
      DaysBeforeNextYear(d.year);
      MonthsFillYear(d.year);
      assert DaysBeforeMonth(d.year, 13) == DaysBeforeMonth(d.year, 12) + 31;
    }
  }

  /** Consecutive days have consecutive weekdays. */
  lemma NextDayAdvancesWeekday(d: Date)
    requires Valid(d) && d != Date(MaxYear, 12, 31)
    ensures NextDay(d).Success? && Valid(NextDay(d).value)
    ensures Weekday(NextDay(d).value) == (Weekday(d) + 1) % 7
  {
    NextDayOrdinal(d);
  }
}
