/** The order a whole run imposes: within each month, from each month to everything after
    it, and along the tail chain. Over distinct state ids each ordering fact holds for every
    dispatch of the later invocation. */
module RunOrder {
  import opened Calendar
  import opened IsoFormat
  import opened MonthWindow
  import opened Registry
  import opened Invocations
  import opened AggregationPlan
  import opened PlanProperties
  import opened PlanContents
  import opened RunProperties
  import opened DispatchSites

  /** Every month of the window imposes its order within the run's schedule. */
  lemma RunOrdersEachMonth(date: Date, intervals: int, states: seq<string>)
    requires Valid(date) && CalculationDates(date, intervals).Success?
    ensures var w := CalculationDates(date, intervals).value;
      var r := Run(date, intervals, true, states);
      && r.Planned?
      && (forall m :: 0 <= m < |w| ==> MonthOrdered(r.steps, w[m], states))
      && (Distinct(states) ==> OrderIsStrict(r.steps))
  {
    var w := CalculationDates(date, intervals).value;
    var steps := Run(date, intervals, true, states).steps;
    RunLaidOut(date, intervals, states);
    forall m | 0 <= m < |w|
      ensures MonthOrdered(steps, w[m], states)
    {
      MonthOrderedAt(steps, 3 + 4 * m, m, w[m], states);
    }
    if Distinct(states) {
      RunOrderIsStrict(date, intervals, states);
    }
  }

  /** Each month's joined work is finished before anything dispatched after its AWC round:
      the later months and the tail. */
  lemma RunMonthsJoinedInOrder(date: Date, intervals: int, states: seq<string>)
    requires Valid(date) && CalculationDates(date, intervals).Success?
    ensures var w := CalculationDates(date, intervals).value;
      var r := Run(date, intervals, true, states);
      && r.Planned?
      && (forall m :: 0 <= m < |w| ==> JoinedBeforeLater(r.steps, 3 + 4 * m))
      && (Distinct(states) ==> OrderIsStrict(r.steps))
  {
    var w := CalculationDates(date, intervals).value;
    var steps := Run(date, intervals, true, states).steps;
    RunLaidOut(date, intervals, states);
    forall m | 0 <= m < |w|
      ensures JoinedBeforeLater(steps, 3 + 4 * m)
    {
      JoinedBeforeLaterAt(steps, 3 + 4 * m, m, w[m], states);
    }
    if Distinct(states) {
      RunOrderIsStrict(date, intervals, states);
    }
  }

  /** The months run in window order: the last stage of a month finishes before the first
      stage of any later month, and every month's before the tail chain. */
  lemma MonthsInWindowOrder(date: Date, intervals: int, states: seq<string>)
    requires Valid(date) && CalculationDates(date, intervals).Success?
    ensures var w := CalculationDates(date, intervals).value;
      var r := Run(date, intervals, true, states);
      && r.Planned?
      && (forall m, n :: 0 <= m < n < |w| ==>
            RunsBefore(r.steps, GlobalInv(AggLsTable, FormatDate(w[m])),
                       GlobalInv(DailyAttendanceTable, FormatDate(w[n]))))
      && (forall m :: 0 <= m < |w| ==>
            RunsBefore(r.steps, GlobalInv(AggLsTable, FormatDate(w[m])),
                       GlobalInv(AggregateAwcDaily, FormatDate(date))))
      && (Distinct(states) ==> OrderIsStrict(r.steps))
  {
    var w := CalculationDates(date, intervals).value;
    var steps := Run(date, intervals, true, states).steps;
    RunLaidOut(date, intervals, states);
    forall m, n | 0 <= m < n < |w|
      ensures RunsBefore(steps, GlobalInv(AggLsTable, FormatDate(w[m])),
                         GlobalInv(DailyAttendanceTable, FormatDate(w[n])))
    {
      WindowOrderIn(steps, date, w, states, m, n);
    }
    forall m | 0 <= m < |w|
      ensures RunsBefore(steps, GlobalInv(AggLsTable, FormatDate(w[m])),
                         GlobalInv(AggregateAwcDaily, FormatDate(date)))
    {
      BeforeTailIn(steps, date, w, states, m);
    }
    if Distinct(states) {
      RunOrderIsStrict(date, intervals, states);
    }
  }

  /** The tail chain is always dispatched with the run date's text, as the last job of the
      run and the only one under its handle, and runs the daily AWC aggregation, the cache
      bust and the e-mail in that order. */
  lemma TailDispatches(date: Date, intervals: int, states: seq<string>)
    requires Valid(date) && CalculationDates(date, intervals).Success?
    ensures var r := Run(date, intervals, true, states);
      var day := FormatDate(date);
      && r.Planned?
      && DispatchesAt(r.steps, |r.steps| - 1, TailH, GlobalInv(AggregateAwcDaily, day))
      && DispatchesAt(r.steps, |r.steps| - 1, TailH, BustAwcCache)
      && DispatchesAt(r.steps, |r.steps| - 1, TailH, EmailDashboardTeam(day))
      && HandlesUnique(r.steps)
      && RunsBefore(r.steps, GlobalInv(AggregateAwcDaily, day), BustAwcCache)
      && RunsBefore(r.steps, BustAwcCache, EmailDashboardTeam(day))
      && (Distinct(states) ==>
            && StartsAfter(r.steps, GlobalInv(AggregateAwcDaily, day), BustAwcCache)
            && StartsAfter(r.steps, BustAwcCache, EmailDashboardTeam(day)))
  {
    RunLaidOut(date, intervals, states);
    RunHandlesUnique(date, intervals, states);
    TailIn(Run(date, intervals, true, states).steps, date, CalculationDates(date, intervals).value, states);
    if Distinct(states) {
      RunOrderIsStrict(date, intervals, states);
    }
  }
}
