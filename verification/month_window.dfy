/** The sliding window of calculation dates of one aggregation run: the last day of each
    of the `intervals - 1` months before the run date's month, oldest first, then the run
    date itself. */
module MonthWindow {
  import opened Wrappers
  import opened Calendar

  /** One pass of the loop `for interval in range(n, 0, -1)` with `interval == k`: the first
      of the month `k - 1` months back, minus one day, which is the last day of the month
      `k` months back. Moving the month fails when the year leaves 1..9999; the day before
      0001-01-01 overflows. */
  function MonthEndBack(first: Date, k: int): (r: Result<Date, DateError>)
    requires Valid(first) && first.day == 1 && k >= 1
    ensures r.Success? <==> MonthIndex(first) - k >= 12 * MinYear
    ensures r.Failure? ==>
      r.error == (if MonthIndex(first) - k + 1 < 12 * MinYear then YearOutOfRange else DateOverflow)
    ensures r.Success? ==> r.value == LastDayOfMonthIndex(MonthIndex(first) - k)
  {
    var firstDayNextMonth :- SubtractMonths(first, k - 1);
    DayBeforeFirstIsMonthEnd(firstDayNextMonth);
    DayBefore(firstDayNextMonth)
  }

  /** The entries of the whole loop, oldest first. On success the entry for interval `n - i`
      is the last day of the month `n - i` months before `first`; on failure the error is
      that of the oldest month. */
  function MonthEnds(first: Date, n: int): (r: Result<seq<Date>, DateError>)
    requires Valid(first) && first.day == 1
    ensures r.Success? <==> n <= 0 || MonthIndex(first) - n >= 12 * MinYear
    ensures r.Failure? ==>
      r.error == (if MonthIndex(first) - n + 1 < 12 * MinYear then YearOutOfRange else DateOverflow)
    ensures r.Success? ==> |r.value| == (if n <= 0 then 0 else n)
    ensures r.Success? ==> forall i :: 0 <= i < |r.value| ==> Valid(r.value[i])
    decreases n
  {
    if n <= 0 then Success([])
    else
      var monthEnd :- MonthEndBack(first, n);
      Prepend(monthEnd, MonthEnds(first, n - 1))
  }

  /** On success the entry at place `i` is the last day of the month `n - i` months before
      `first`. */
  lemma {:induction false} MonthEndsEntries(first: Date, n: int, i: int)
    requires Valid(first) && first.day == 1
    requires MonthEnds(first, n).Success? && 0 <= i < |MonthEnds(first, n).value|
    ensures MonthIndex(first) - (n - i) >= 12 * MinYear
    ensures MonthEnds(first, n).value[i] == LastDayOfMonthIndex(MonthIndex(first) - (n - i))
    decreases n
  {
    var rest := MonthEnds(first, n - 1);
    assert MonthEnds(first, n).value == [MonthEndBack(first, n).value] + rest.value;
    if i > 0 {
      MonthEndsEntries(first, n - 1, i - 1);
    }
  }

  /** `x` in front of a successful list; a failure passes through. */
  function Prepend<T, E>(x: T, rs: Result<seq<T>, E>): (r: Result<seq<T>, E>)
    ensures r.Success? <==> rs.Success?
    ensures r.Failure? ==> r.error == rs.error
    ensures r.Success? ==> r.value == [x] + rs.value
  {
    match rs
    case Success(rest) => Success([x] + rest)
    case Failure(e) => Failure(e)
  }

  /** `monthly_dates` of `move_ucr_data_into_aggregation_tables(date, intervals)`. */
  function CalculationDates(date: Date, intervals: int): (r: Result<seq<Date>, DateError>)
    requires Valid(date)
    ensures r.Success? ==> forall i :: 0 <= i < |r.value| ==> Valid(r.value[i])
  {
    var earlier :- MonthEnds(FirstOfMonth(date), intervals - 1);
    Success(earlier + [date])
  }

  function WindowLength(intervals: int): nat {
    if intervals <= 1 then 1 else intervals
  }

  /** The window fails exactly when it would reach back before January of year 1. */
  lemma WindowFailsExactly(date: Date, intervals: int)
    requires Valid(date)
    ensures CalculationDates(date, intervals).Failure? <==>
      intervals >= 2 && MonthIndex(date) - (intervals - 1) < 12 * MinYear
  {
  }

  /** A successful window has `max(intervals, 1)` entries, ends with the run date, and holds
      at each earlier place the last calendar day of the month as many months back as the
      place is from the end. */
  lemma WindowShape(date: Date, intervals: int)
    requires Valid(date)
    requires CalculationDates(date, intervals).Success?
    ensures var w := CalculationDates(date, intervals).value;
      && |w| == WindowLength(intervals)
      && w[|w| - 1] == date
      && (forall i :: 0 <= i < |w| - 1 ==>
            MonthIndex(date) - (|w| - 1 - i) >= 12 * MinYear
            && w[i] == LastDayOfMonthIndex(MonthIndex(date) - (|w| - 1 - i)))
  {
    var w := CalculationDates(date, intervals).value;
    forall i | 0 <= i < |w| - 1
      ensures MonthIndex(date) - (|w| - 1 - i) >= 12 * MinYear
      ensures w[i] == LastDayOfMonthIndex(MonthIndex(date) - (|w| - 1 - i))
    {
      WindowEntry(date, intervals, i);
    }
  }

  lemma WindowEntry(date: Date, intervals: int, i: int)
    requires Valid(date)
    requires CalculationDates(date, intervals).Success?
    requires 0 <= i < |CalculationDates(date, intervals).value| - 1
    ensures var w := CalculationDates(date, intervals).value;
      && |w| == WindowLength(intervals)
      && MonthIndex(date) - (|w| - 1 - i) >= 12 * MinYear
      && w[i] == LastDayOfMonthIndex(MonthIndex(date) - (|w| - 1 - i))
  {
    var earlier := MonthEnds(FirstOfMonth(date), intervals - 1).value;
    assert CalculationDates(date, intervals).value == earlier + [date];
    MonthEndsEntries(FirstOfMonth(date), intervals - 1, i);
  }

  /** Every date of a successful window is a calendar date, and the window is strictly
      ascending. */
  lemma WindowAscending(date: Date, intervals: int)
    requires Valid(date)
    requires CalculationDates(date, intervals).Success?
    ensures var w := CalculationDates(date, intervals).value;
      && (forall i :: 0 <= i < |w| ==> Valid(w[i]) && MonthIndex(w[i]) == MonthIndex(date) - (|w| - 1 - i))
      && (forall i, j :: 0 <= i < j < |w| ==> Before(w[i], w[j]))
  {
    var w := CalculationDates(date, intervals).value;
    WindowShape(date, intervals);
    forall i, j | 0 <= i < j < |w|
      ensures Before(w[i], w[j])
    {
      EarlierMonthIsBefore(w[i], w[j]);
    }
  }

  /** The worked example of a run on 2020-03-15 over three months, across a leap February. */
  lemma LeapYearExample()
    ensures CalculationDates(Date(2020, 3, 15), 3)
      == Success([Date(2020, 1, 31), Date(2020, 2, 29), Date(2020, 3, 15)])
  {
    var first := Date(2020, 3, 1);
    assert LastDayOfMonthIndex(MonthIndex(first) - 2) == Date(2020, 1, 31);
    assert LastDayOfMonthIndex(MonthIndex(first) - 1) == Date(2020, 2, 29);
    var e := MonthEnds(first, 2).value;
    assert e[0] == Date(2020, 1, 31) && e[1] == Date(2020, 2, 29);
    assert e == [Date(2020, 1, 31), Date(2020, 2, 29)];
    assert FirstOfMonth(Date(2020, 3, 15)) == first;
    assert MonthEnds(FirstOfMonth(Date(2020, 3, 15)), 3 - 1) == Success(e);
    assert CalculationDates(Date(2020, 3, 15), 3) == Success(e + [Date(2020, 3, 15)]);
    assert e + [Date(2020, 3, 15)] == [Date(2020, 1, 31), Date(2020, 2, 29), Date(2020, 3, 15)];
  }
}
