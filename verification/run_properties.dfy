/** What a whole aggregation run lays out: the mapping refresh first, the months of the
    window one after another in window order, each joined before the next begins, and the
    tail after the last month. */
module RunProperties {
  import opened Wrappers
  import opened Calendar
  import opened IsoFormat
  import opened MonthWindow
  import opened Registry
  import opened Invocations
  import opened TaskOutcome
  import opened AggregationPlan
  import opened PlanProperties
  import opened PlanContents

  // ---------------------------------------------------------------------------------------
  // Where each month sits

  /** Month `i` of `window` occupies four consecutive steps, `4 * i` after the start of the
      months, whatever precedes or follows them. */
  lemma {:induction false} MonthsStepsLayout(steps: seq<Step>, pre: seq<Step>, window: seq<Date>,
                                             m: nat, states: seq<string>, post: seq<Step>,
                                             i: int, o: int, mi: nat)
    requires forall k :: 0 <= k < |window| ==> Valid(window[k])
    requires steps == pre + MonthsSteps(window, m, states) + post
    requires 0 <= i < |window| && o == |pre| + 4 * i && mi == m + i
    ensures MonthAt(steps, o, mi, window[i], states)
    decreases |window|
  {
    if i == 0 {
      MonthsStepsHead(steps, pre, window, m, states, post);
    } else {
      MonthsStepsUnfold(steps, pre, window, m, states, post);
      var rest := window[1..];
      assert rest[i - 1] == window[i];
      MonthsStepsLayout(steps, pre + MonthSteps(m, window[0], states), rest, m + 1, states,
                        post, i - 1, o, mi);
    }
  }

  /** The first month split off the months that follow it. */
  lemma MonthsStepsUnfold(steps: seq<Step>, pre: seq<Step>, window: seq<Date>, m: nat,
                          states: seq<string>, post: seq<Step>)
    requires forall k :: 0 <= k < |window| ==> Valid(window[k])
    requires steps == pre + MonthsSteps(window, m, states) + post
    requires window != []
    ensures forall k :: 0 <= k < |window[1..]| ==> Valid(window[1..][k])
    ensures steps == (pre + MonthSteps(m, window[0], states)) + MonthsSteps(window[1..], m + 1, states) + post
  {
    var head := MonthSteps(m, window[0], states);
    var rest := MonthsSteps(window[1..], m + 1, states);
    assert MonthsSteps(window, m, states) == head + rest;
    Regroup(pre, head, rest, post);
  }

  /** The first month sits right after what precedes the months. */
  lemma MonthsStepsHead(steps: seq<Step>, pre: seq<Step>, window: seq<Date>, m: nat,
                        states: seq<string>, post: seq<Step>)
    requires forall k :: 0 <= k < |window| ==> Valid(window[k])
    requires steps == pre + MonthsSteps(window, m, states) + post
    requires window != []
    ensures MonthAt(steps, |pre|, m, window[0], states)
  {
    var head := MonthSteps(m, window[0], states);
    var rest := MonthsSteps(window[1..], m + 1, states);
    assert MonthsSteps(window, m, states) == head + rest;
    Regroup(pre, head, rest, post);
    MonthHeadAt(steps, pre, rest + post, m, window[0], states);
  }

  lemma MonthHeadAt(steps: seq<Step>, pre: seq<Step>, post: seq<Step>, m: nat, md: Date,
                    states: seq<string>)
    requires Valid(md) && steps == pre + MonthSteps(m, md, states) + post
    ensures MonthAt(steps, |pre|, m, md, states)
  {
    BlockAt(steps, pre, MonthSteps(m, md, states), post);
  }

  lemma Regroup<T>(a: seq<T>, b: seq<T>, c: seq<T>, d: seq<T>)
    ensures a + (b + c) + d == (a + b) + c + d == a + b + (c + d)
  {
  }

  lemma BlockAt<T>(s: seq<T>, a: seq<T>, b: seq<T>, c: seq<T>)
    requires s == a + b + c
    ensures forall j :: 0 <= j < |b| ==> s[|a| + j] == b[j]
  {
  }

  /** The step list of a run that has a window and a database alias. */
  lemma RunSteps(date: Date, intervals: int, states: seq<string>, w: seq<Date>)
    requires Valid(date) && CalculationDates(date, intervals) == Success(w)
    ensures Run(date, intervals, true, states).Planned?
    ensures Run(date, intervals, true, states).steps
      == [Call(RefreshTableMapping)] + [Call(CreateAggregateFunctions), Call(AggregateLocations)]
         + MonthsSteps(w, 0, states) + [TailStep(date)]
  {
  }

  /** The shape of a schedule laid out for the run date `date` over the window `w`: three
      synchronous calls, four steps per month in window order, one tail step. */
  ghost predicate LaidOut(steps: seq<Step>, date: Date, w: seq<Date>, states: seq<string>)
    requires Valid(date) && forall k :: 0 <= k < |w| ==> Valid(w[k])
  {
    && |steps| == 4 * |w| + 4
    && steps[0] == Call(RefreshTableMapping)
    && steps[1] == Call(CreateAggregateFunctions)
    && steps[2] == Call(AggregateLocations)
    && steps[|steps| - 1] == TailStep(date)
    && forall m :: 0 <= m < |w| ==> MonthAt(steps, 3 + 4 * m, m, w[m], states)
  }

  lemma LaidOutSteps(steps: seq<Step>, date: Date, w: seq<Date>, states: seq<string>)
    requires Valid(date) && forall k :: 0 <= k < |w| ==> Valid(w[k])
    requires steps == [Call(RefreshTableMapping)] + [Call(CreateAggregateFunctions), Call(AggregateLocations)]
                      + MonthsSteps(w, 0, states) + [TailStep(date)]
    ensures LaidOut(steps, date, w, states)
  {
    var pre := [Call(RefreshTableMapping)] + [Call(CreateAggregateFunctions), Call(AggregateLocations)];
    forall m | 0 <= m < |w|
      ensures MonthAt(steps, 3 + 4 * m, m, w[m], states)
    {
      MonthsStepsLayout(steps, pre, w, 0, states, [TailStep(date)], m, 3 + 4 * m, m);
    }
  }

  /** A run that has a window and a database alias lays out its schedule over that window. */
  lemma RunLaidOut(date: Date, intervals: int, states: seq<string>)
    requires Valid(date) && CalculationDates(date, intervals).Success?
    ensures var r := Run(date, intervals, true, states);
      && r.Planned?
      && LaidOut(r.steps, date, CalculationDates(date, intervals).value, states)
  {
    var w := CalculationDates(date, intervals).value;
    RunSteps(date, intervals, states, w);
    LaidOutSteps(Run(date, intervals, true, states).steps, date, w, states);
  }

  // ---------------------------------------------------------------------------------------
  // Runs that stop early

  /** Without the dashboard database alias only the mapping refresh happens; a window that
      reaches back before year 1 raises right after that refresh, whatever the alias. */
  lemma ShortRuns(date: Date, intervals: int, hasDbAlias: bool, states: seq<string>)
    requires Valid(date)
    ensures CalculationDates(date, intervals).Success? && !hasDbAlias ==>
      Run(date, intervals, hasDbAlias, states) == Planned([Call(RefreshTableMapping)])
    ensures Run(date, intervals, hasDbAlias, states).Aborted? <==>
      intervals >= 2 && MonthIndex(date) - (intervals - 1) < 12 * MinYear
    ensures Run(date, intervals, hasDbAlias, states).Aborted? ==>
      Run(date, intervals, hasDbAlias, states).steps == [Call(RefreshTableMapping)]
  {
    WindowFailsExactly(date, intervals);
  }

  // ---------------------------------------------------------------------------------------
  // Facts about a laid-out schedule

  /** Which part of the schedule step `k` belongs to: one of the three synchronous calls,
      step `j` of month `m`, or the tail. */
  lemma LocateStep(steps: seq<Step>, date: Date, w: seq<Date>, states: seq<string>, k: int)
    returns (m: int, j: int)
    requires Valid(date) && forall x :: 0 <= x < |w| ==> Valid(w[x])
    requires LaidOut(steps, date, w, states) && 0 <= k < |steps|
    ensures || (k < 3 && steps[k].Call?)
            || k == |steps| - 1
            || (0 <= m < |w| && 0 <= j < 4 && k == 3 + 4 * m + j
                && MonthAt(steps, 3 + 4 * m, m, w[m], states))
  {
    m, j := (k - 3) / 4, (k - 3) % 4;
  }

  /** The month's `_agg_ls_table` precedes whatever is dispatched after its AWC round. */
  lemma LastStageJoined(steps: seq<Step>, o: int, m: nat, md: Date, states: seq<string>,
                        k2: int, hb: Handle, b: Invocation)
    requires Valid(md) && MonthAt(steps, o, m, md, states)
    requires o + 2 < k2 && DispatchesAt(steps, k2, hb, b)
    ensures RunsBefore(steps, GlobalInv(AggLsTable, FormatDate(md)), b)
  {
    LsTableJoined(steps, o, m, md, states);
    JoinIntro(steps, o + 2, o + 2, k2, AwcH(m), hb, GlobalInv(AggLsTable, FormatDate(md)), b);
  }

  lemma TailDailyAt(steps: seq<Step>, date: Date, w: seq<Date>, states: seq<string>)
    requires Valid(date) && forall x :: 0 <= x < |w| ==> Valid(w[x])
    requires LaidOut(steps, date, w, states)
    ensures DispatchesAt(steps, |steps| - 1, TailH, GlobalInv(AggregateAwcDaily, FormatDate(date)))
  {
    var ds := steps[|steps| - 1].dispatches;
    assert ds[|ds| - 1] == Dispatch(TailH, Chain(TailChain(FormatDate(date))));
    DispatchIntro(steps, |steps| - 1, |ds| - 1, GlobalInv(AggregateAwcDaily, FormatDate(date)));
  }

  /** The tail chain's links, in the last step, in chain order. */
  lemma TailIn(steps: seq<Step>, date: Date, w: seq<Date>, states: seq<string>)
    requires Valid(date) && forall x :: 0 <= x < |w| ==> Valid(w[x])
    requires LaidOut(steps, date, w, states)
    ensures var day := FormatDate(date);
      && DispatchesAt(steps, |steps| - 1, TailH, GlobalInv(AggregateAwcDaily, day))
      && DispatchesAt(steps, |steps| - 1, TailH, BustAwcCache)
      && DispatchesAt(steps, |steps| - 1, TailH, EmailDashboardTeam(day))
      && RunsBefore(steps, GlobalInv(AggregateAwcDaily, day), BustAwcCache)
      && RunsBefore(steps, BustAwcCache, EmailDashboardTeam(day))
  {
    var day := FormatDate(date);
    var last := |steps| - 1;
    var ds := steps[last].dispatches;
    var t := |ds| - 1;
    assert ds[t] == Dispatch(TailH, Chain(TailChain(day)));
    DispatchIntro(steps, last, t, GlobalInv(AggregateAwcDaily, day));
    DispatchIntro(steps, last, t, BustAwcCache);
    DispatchIntro(steps, last, t, EmailDashboardTeam(day));
    ChainLinksOrdered(steps, last, t, TailChain(day), 0, 1, GlobalInv(AggregateAwcDaily, day), BustAwcCache);
    ChainLinksOrdered(steps, last, t, TailChain(day), 1, 2, BustAwcCache, EmailDashboardTeam(day));
  }

  /** The invocations the tail may dispatch: the weekly AWC aggregation on a Saturday, and the
      three links of the tail chain. */
  ghost predicate OfTail(inv: Invocation, date: Date)
    requires Valid(date)
  {
    var day := FormatDate(date);
    || (inv == GlobalInv(AggAwcTableWeekly, day) && Weekday(date) == Saturday)
    || inv == GlobalInv(AggregateAwcDaily, day)
    || inv == BustAwcCache
    || inv == EmailDashboardTeam(day)
  }

  lemma TailStepOfTail(date: Date, i: int, inv: Invocation)
    requires Valid(date) && TailStep(date).Round?
    requires 0 <= i < |TailStep(date).dispatches|
    requires inv in JobInvocations(TailStep(date).dispatches[i].job)
    ensures OfTail(inv, date)
  {
  }

  /** The part of the schedule an invocation dispatched at step `k` belongs to: month `m` of
      the window, or the tail. */
  lemma DispatchOrigin(steps: seq<Step>, date: Date, w: seq<Date>, states: seq<string>,
                       k: int, h: Handle, inv: Invocation) returns (m: int)
    requires Valid(date) && forall x :: 0 <= x < |w| ==> Valid(w[x])
    requires LaidOut(steps, date, w, states) && DispatchesAt(steps, k, h, inv)
    ensures (0 <= m < |w| && OfMonth(inv, w[m], states)) || OfTail(inv, date)
  {
    var j;
    m, j := LocateStep(steps, date, w, states, k);
    if k == |steps| - 1 {
      TailDispatchOrigin(steps, date, k, h, inv);
    } else {
      MonthDispatchOrigin(steps, 3 + 4 * m, m, w[m], states, j, k, h, inv);
    }
  }

  /** What the tail step dispatches is tail work. */
  lemma TailDispatchOrigin(steps: seq<Step>, date: Date, k: int, h: Handle, inv: Invocation)
    requires Valid(date) && 0 <= k < |steps| && steps[k] == TailStep(date)
    requires DispatchesAt(steps, k, h, inv)
    ensures OfTail(inv, date)
  {
    var i :| 0 <= i < |steps[k].dispatches| && steps[k].dispatches[i].handle == h
             && inv in JobInvocations(steps[k].dispatches[i].job);
    TailStepOfTail(date, i, inv);
  }

  /** What step `j` of a month dispatches is work of that month. */
  lemma MonthDispatchOrigin(steps: seq<Step>, o: int, m: nat, md: Date, states: seq<string>,
                            j: int, k: int, h: Handle, inv: Invocation)
    requires Valid(md) && MonthAt(steps, o, m, md, states) && 0 <= j < 4 && k == o + j
    requires DispatchesAt(steps, k, h, inv)
    ensures OfMonth(inv, md, states)
  {
    MonthStepOfMonth(steps, o, m, md, states, j);
  }

  lemma WellKeyedIn(steps: seq<Step>, date: Date, w: seq<Date>, states: seq<string>,
                    k: int, h: Handle, inv: Invocation)
    requires Valid(date) && forall x :: 0 <= x < |w| ==> Valid(w[x])
    requires LaidOut(steps, date, w, states) && DispatchesAt(steps, k, h, inv)
    ensures WellKeyed(inv)
  {
    var m := DispatchOrigin(steps, date, w, states, k, h, inv);
    if 0 <= m < |w| && OfMonth(inv, w[m], states) {
      OfMonthWellKeyed(inv, w[m], states);
    } else {
      GlobalInvWellKeyed(AggAwcTableWeekly, FormatDate(date));
      GlobalInvWellKeyed(AggregateAwcDaily, FormatDate(date));
    }
  }

  lemma WeeklyIn(steps: seq<Step>, date: Date, w: seq<Date>, states: seq<string>, k: int, h: Handle)
    requires Valid(date) && forall x :: 0 <= x < |w| ==> Valid(w[x])
    requires LaidOut(steps, date, w, states)
    requires DispatchesAt(steps, k, h, GlobalInv(AggAwcTableWeekly, FormatDate(date)))
    ensures Weekday(date) == Saturday
  {
    var m := DispatchOrigin(steps, date, w, states, k, h, GlobalInv(AggAwcTableWeekly, FormatDate(date)));
    if 0 <= m < |w| {
      WeeklyNotOfMonth(FormatDate(date), w[m], states);
    }
    GlobalNameFound(AggregateAwcDaily);
    GlobalNameFound(AggAwcTableWeekly);
  }

  lemma AwaitedIn(steps: seq<Step>, date: Date, w: seq<Date>, states: seq<string>, k: int, h: Handle)
    requires Valid(date) && forall x :: 0 <= x < |w| ==> Valid(w[x])
    requires LaidOut(steps, date, w, states) && AwaitsAt(steps, k, h)
    ensures !h.MbtH? && !h.WeeklyH? && !h.TailH?
  {
    var m, j := LocateStep(steps, date, w, states, k);
    if k != |steps| - 1 {
      MonthStepOfMonth(steps, 3 + 4 * m, m, w[m], states, j);
      assert steps[k] == steps[3 + 4 * m + j];
    }
  }

  // ---------------------------------------------------------------------------------------
  // What a run guarantees

  lemma WindowOrderIn(steps: seq<Step>, date: Date, w: seq<Date>, states: seq<string>, m: int, n: int)
    requires Valid(date) && forall x :: 0 <= x < |w| ==> Valid(w[x])
    requires LaidOut(steps, date, w, states) && 0 <= m < n < |w|
    ensures RunsBefore(steps, GlobalInv(AggLsTable, FormatDate(w[m])),
                       GlobalInv(DailyAttendanceTable, FormatDate(w[n])))
  {
    var daily := GlobalInv(DailyAttendanceTable, FormatDate(w[n]));
    assert MonthAt(steps, 3 + 4 * m, m, w[m], states);
    assert MonthAt(steps, 3 + 4 * n, n, w[n], states);
    DailyAt(steps, 3 + 4 * n, n, w[n], states);
    LastStageJoined(steps, 3 + 4 * m, m, w[m], states, 3 + 4 * n, DailyH(n), daily);
  }

  lemma BeforeTailIn(steps: seq<Step>, date: Date, w: seq<Date>, states: seq<string>, m: int)
    requires Valid(date) && forall x :: 0 <= x < |w| ==> Valid(w[x])
    requires LaidOut(steps, date, w, states) && 0 <= m < |w|
    ensures RunsBefore(steps, GlobalInv(AggLsTable, FormatDate(w[m])),
                       GlobalInv(AggregateAwcDaily, FormatDate(date)))
  {
    assert MonthAt(steps, 3 + 4 * m, m, w[m], states);
    TailDailyAt(steps, date, w, states);
    LastStageJoined(steps, 3 + 4 * m, m, w[m], states, |steps| - 1, TailH,
                    GlobalInv(AggregateAwcDaily, FormatDate(date)));
  }

  /** A run dispatches nothing but the invocations of its months and of its tail. */
  lemma RunDispatchesOnly(date: Date, intervals: int, states: seq<string>)
    requires Valid(date) && CalculationDates(date, intervals).Success?
    ensures var w := CalculationDates(date, intervals).value;
      var r := Run(date, intervals, true, states);
      && r.Planned?
      && forall k, h, inv :: DispatchesAt(r.steps, k, h, inv) ==>
           (exists m :: 0 <= m < |w| && OfMonth(inv, w[m], states)) || OfTail(inv, date)
  {
    var w := CalculationDates(date, intervals).value;
    var steps := Run(date, intervals, true, states).steps;
    RunLaidOut(date, intervals, states);
    forall k, h, inv | DispatchesAt(steps, k, h, inv)
      ensures (exists m :: 0 <= m < |w| && OfMonth(inv, w[m], states)) || OfTail(inv, date)
    {
      var m := DispatchOrigin(steps, date, w, states, k, h, inv);
    }
  }

  /** Every stage name a run hands to either task is a key of that task's registry, so no
      dispatched stage invocation ends in the unknown-name failure. */
  lemma RunWellKeyed(date: Date, intervals: int, states: seq<string>)
    requires Valid(date) && CalculationDates(date, intervals).Success?
    ensures var r := Run(date, intervals, true, states);
      && r.Planned?
      && (forall k, h, inv :: DispatchesAt(r.steps, k, h, inv) ==> WellKeyed(inv))
      && (forall k, h, inv, hasDbAlias, behaviour ::
            DispatchesAt(r.steps, k, h, inv) && IsStageTask(inv) ==>
              !RunInvocation(inv, hasDbAlias, behaviour).outcome.UnknownStage?)
  {
    var w := CalculationDates(date, intervals).value;
    var steps := Run(date, intervals, true, states).steps;
    RunLaidOut(date, intervals, states);
    forall k, h, inv | DispatchesAt(steps, k, h, inv)
      ensures WellKeyed(inv)
    {
      WellKeyedIn(steps, date, w, states, k, h, inv);
    }
    forall k, h, inv, hasDbAlias, behaviour | DispatchesAt(steps, k, h, inv) && IsStageTask(inv)
      ensures !RunInvocation(inv, hasDbAlias, behaviour).outcome.UnknownStage?
    {
      WellKeyedIn(steps, date, w, states, k, h, inv);
      WellKeyedNeverUnknown(inv, hasDbAlias, behaviour);
    }
  }

  /** The weekly AWC aggregation is dispatched somewhere in the run exactly when the run date
      is a Saturday. */
  lemma WeeklyOnlyOnSaturday(date: Date, intervals: int, states: seq<string>)
    requires Valid(date) && CalculationDates(date, intervals).Success?
    ensures var r := Run(date, intervals, true, states);
      && r.Planned?
      && ((exists k, h :: DispatchesAt(r.steps, k, h, GlobalInv(AggAwcTableWeekly, FormatDate(date))))
          <==> Weekday(date) == Saturday)
  {
    var w := CalculationDates(date, intervals).value;
    var steps := Run(date, intervals, true, states).steps;
    var weekly := GlobalInv(AggAwcTableWeekly, FormatDate(date));
    RunLaidOut(date, intervals, states);
    forall k, h | DispatchesAt(steps, k, h, weekly)
      ensures Weekday(date) == Saturday
    {
      WeeklyIn(steps, date, w, states, k, h);
    }
    if Weekday(date) == Saturday {
      DispatchIntro(steps, |steps| - 1, 0, weekly);
    }
  }

  /** The orchestrator never waits for an MBT job, the weekly aggregation or the tail chain:
      those are left to run on their own. */
  lemma FireAndForget(date: Date, intervals: int, states: seq<string>)
    requires Valid(date) && CalculationDates(date, intervals).Success?
    ensures var r := Run(date, intervals, true, states);
      && r.Planned?
      && forall k, h :: AwaitsAt(r.steps, k, h) ==> !h.MbtH? && !h.WeeklyH? && !h.TailH?
  {
    var w := CalculationDates(date, intervals).value;
    var steps := Run(date, intervals, true, states).steps;
    RunLaidOut(date, intervals, states);
    forall k, h | AwaitsAt(steps, k, h)
      ensures !h.MbtH? && !h.WeeklyH? && !h.TailH?
    {
      AwaitedIn(steps, date, w, states, k, h);
    }
  }

  /** After each month's AWC join, one MBT job per state for the first of that month. */
  lemma RunMbtJobs(date: Date, intervals: int, states: seq<string>, m: int)
    requires Valid(date) && CalculationDates(date, intervals).Success?
    requires 0 <= m < |CalculationDates(date, intervals).value|
    ensures var w := CalculationDates(date, intervals).value;
      var r := Run(date, intervals, true, states);
      && r.Planned?
      && AwaitsAt(r.steps, 5 + 4 * m, AwcH(m))
      && forall i :: 0 <= i < |states| ==>
           DispatchesAt(r.steps, 6 + 4 * m, MbtH(m, i), CreateMbt(states[i], FormatDate(FirstOfMonth(w[m]))))
  {
    var w := CalculationDates(date, intervals).value;
    var steps := Run(date, intervals, true, states).steps;
    RunLaidOut(date, intervals, states);
    AwcRoundAt(steps, 3 + 4 * m, m, w[m], states);
    MbtJobsAt(steps, 3 + 4 * m, m, w[m], states);
  }
}
