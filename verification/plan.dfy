/** The schedule built by `move_ucr_data_into_aggregation_tables`, as a value. The run is a
    sequence of steps: a synchronous call made by the orchestrator itself, or a round
    that hands jobs to the queue and then blocks on some of the handles dispatched so far
    (the `.get()` calls). Jobs that are never awaited are fire-and-forget. */
module AggregationPlan {
  import opened Wrappers
  import opened Calendar
  import opened IsoFormat
  import opened MonthWindow
  import opened Registry
  import opened Invocations

  /** The result handle of a dispatched job, named by its role and by the place `m` of its
      month in the window. */
  datatype Handle =
    | DailyH(m: nat)
    | FormH(m: nat, i: nat)
    | ChildH(m: nat)
    | CcsH(m: nat)
    | AwcH(m: nat)
    | MbtH(m: nat, i: nat)
    | WeeklyH
    | TailH

  datatype Dispatch = Dispatch(handle: Handle, job: Job)

  /** Work the orchestrator does in its own process before any month is dispatched. */
  datatype LocalCall =
    | RefreshTableMapping        // _update_ucr_table_mapping()
    | CreateAggregateFunctions   // _create_aggregate_functions(cursor)
    | AggregateLocations         // _update_aggregate_locations_tables()

  datatype Step =
    | Call(call: LocalCall)
      /** dispatch every job in order, then block until each awaited handle has finished */
    | Round(dispatches: seq<Dispatch>, awaits: seq<Handle>)

  /** A run either lays out its whole schedule or raises while computing the window, after
      the steps already taken. */
  datatype RunPlan = Planned(steps: seq<Step>) | Aborted(steps: seq<Step>, error: DateError)

  // ---------------------------------------------------------------------------------------
  // Invocations of one month

  /** A state-scoped stage-1 form aggregation: it receives the `date` object itself. */
  function FormInv(f: StateStage, s: string, md: Date): Invocation {
    StateTask(OneState(s), DateValue(md), StateStageName(f))
  }

  /** A global stage for the calculation date `day`. */
  function GlobalInv(g: GlobalStage, day: string): Invocation {
    GlobalTask(DateText(day), GlobalStageName(g))
  }

  /** A state-scoped stage after stage 1: it receives the calculation date text. */
  function StateInv(f: StateStage, s: string, day: string): Invocation {
    StateTask(OneState(s), DateText(day), StateStageName(f))
  }

  /** The child-health monthly table: one invocation carrying the whole list of states. */
  function ChildMonthlyInv(states: seq<string>, day: string): Invocation {
    StateTask(AllStates(states), DateText(day), StateStageName(ChildHealthMonthlyTable))
  }

  /** One form aggregation per state, in the order of `states`. */
  function PerState(f: StateStage, md: Date, states: seq<string>): (r: seq<Invocation>)
    ensures |r| == |states|
    ensures forall j :: 0 <= j < |states| ==> r[j] == FormInv(f, states[j], md)
  {
    if states == [] then [] else [FormInv(f, states[0], md)] + PerState(f, md, states[1..])
  }

  /** `inv` is the aggregation of one of `forms` for one of `states` in month `md`. */
  ghost predicate IsFormOf(inv: Invocation, forms: seq<StateStage>, md: Date, states: seq<string>) {
    exists f, s :: f in forms && s in states && inv == FormInv(f, s, md)
  }

  /** The per-state fan-out of each form aggregation in `forms`, form after form. */
  function FanOut(forms: seq<StateStage>, md: Date, states: seq<string>): (r: seq<Invocation>)
    ensures |r| == |forms| * |states|
    ensures forall inv :: inv in r ==> IsFormOf(inv, forms, md, states)
  {
    if forms == [] then []
    else
      var head := PerState(forms[0], md, states);
      var tail := FanOut(forms[1..], md, states);
      assert |head + tail| == |forms| * |states| by {
        assert |forms| * |states| == |states| + (|forms| - 1) * |states|;
      }
      assert forall inv :: inv in tail ==> IsFormOf(inv, forms, md, states) by {
        forall inv | inv in tail ensures IsFormOf(inv, forms, md, states) {
          var f, s :| f in forms[1..] && s in states && inv == FormInv(f, s, md);
          assert f in forms;
        }
      }
      assert forall j :: 0 <= j < |head| ==> IsFormOf(head[j], forms, md, states) by {
        forall j | 0 <= j < |head| ensures IsFormOf(head[j], forms, md, states) {
          assert head[j] == FormInv(forms[0], states[j], md);
          assert forms[0] in forms && states[j] in states;
        }
      }
      head + tail
  }

  /** `stage_1_tasks`: the eleven form fan-outs, then `_update_months_table`. */
  function StageOne(md: Date, states: seq<string>): seq<Invocation>
    requires Valid(md)
  {
    FanOut(StageOneForms, md, states) + [GlobalInv(UpdateMonthsTable, FormatDate(md))]
  }

  /** One Lady-Supervisor form aggregation per state, in the order of `states`. */
  function LsFanOut(f: StateStage, day: string, states: seq<string>): (r: seq<Invocation>)
  {
    seq(|states|, i requires 0 <= i < |states| => StateInv(f, states[i], day))
  }

  function ChildChain(day: string, states: seq<string>): seq<Invocation> {
    [ChildMonthlyInv(states, day), GlobalInv(AggChildHealthTable, day)]
  }

  function CcsChain(day: string): seq<Invocation> {
    [GlobalInv(CcsRecordMonthlyTable, day), GlobalInv(AggCcsRecordTable, day)]
  }

  /** `_agg_awc_table`, then the three Lady-Supervisor fan-outs, then `_agg_ls_table`. */
  function AwcChain(day: string, states: seq<string>): seq<Invocation> {
    [GlobalInv(AggAwcTable, day)]
    + LsFanOut(LsAwcMgtForm, day, states)
    + LsFanOut(LsVhndForm, day, states)
    + LsFanOut(BeneficiaryForm, day, states)
    + [GlobalInv(AggLsTable, day)]
  }

  function MbtInv(s: string, md: Date): Invocation
    requires Valid(md)
  {
    CreateMbt(s, FormatMonthStart(md))
  }

  // ---------------------------------------------------------------------------------------
  // Steps of one month and of the run

  function NumberedForms(m: nat, invs: seq<Invocation>): seq<Dispatch> {
    seq(|invs|, i requires 0 <= i < |invs| => Dispatch(FormH(m, i), Single(invs[i])))
  }

  function FormHandles(m: nat, n: nat): seq<Handle> {
    seq(n, i requires 0 <= i < n => FormH(m, i))
  }

  function MbtDispatches(m: nat, md: Date, states: seq<string>): seq<Dispatch>
    requires Valid(md)
  {
    seq(|states|, i requires 0 <= i < |states| => Dispatch(MbtH(m, i), Single(MbtInv(states[i], md))))
  }

  /** The body of the loop over `monthly_dates` for the `m`-th date `md`. */
  function MonthSteps(m: nat, md: Date, states: seq<string>): (r: seq<Step>)
    requires Valid(md)
    ensures |r| == 4
  {
    var day := FormatDate(md);
    var stageOne := StageOne(md, states);
    [ Round([Dispatch(DailyH(m), Single(GlobalInv(DailyAttendanceTable, day)))]
              + NumberedForms(m, stageOne),
            FormHandles(m, |stageOne|)),
      Round([Dispatch(ChildH(m), Chain(ChildChain(day, states))),
             Dispatch(CcsH(m), Chain(CcsChain(day)))],
            [DailyH(m), CcsH(m), ChildH(m)]),
      Round([Dispatch(AwcH(m), Chain(AwcChain(day, states)))], [AwcH(m)]),
      Round(MbtDispatches(m, md, states), []) ]
  }

  /** The months of `window`, the first of them at place `m` of the whole window. */
  function MonthsSteps(window: seq<Date>, m: nat, states: seq<string>): (r: seq<Step>)
    requires forall i :: 0 <= i < |window| ==> Valid(window[i])
    ensures |r| == 4 * |window|
    decreases |window|
  {
    if window == [] then []
    else MonthSteps(m, window[0], states) + MonthsSteps(window[1..], m + 1, states)
  }

  /** After the last month: the weekly AWC aggregation on Saturdays, and the chain of the
      daily AWC aggregation, the cache bust and the team e-mail; none of them awaited. */
  function TailStep(date: Date): Step
    requires Valid(date)
  {
    var day := FormatDate(date);
    var weekly := if Weekday(date) == Saturday
      then [Dispatch(WeeklyH, Single(GlobalInv(AggAwcTableWeekly, day)))]
      else [];
    Round(weekly + [Dispatch(TailH, Chain(TailChain(day)))], [])
  }

  function TailChain(day: string): seq<Invocation> {
    [GlobalInv(AggregateAwcDaily, day), BustAwcCache, EmailDashboardTeam(day)]
  }

  /** `move_ucr_data_into_aggregation_tables(date, intervals)` with the state location ids
      `states` and whether the dashboard database alias is configured. */
  function Run(date: Date, intervals: int, hasDbAlias: bool, states: seq<string>): RunPlan
    requires Valid(date)
  {
    var refresh := [Call(RefreshTableMapping)];
    match CalculationDates(date, intervals)
    case Failure(e) => Aborted(refresh, e)
    case Success(window) =>
      if !hasDbAlias then Planned(refresh)
      else Planned(refresh + [Call(CreateAggregateFunctions), Call(AggregateLocations)]
                   + MonthsSteps(window, 0, states) + [TailStep(date)])
  }

  // ---------------------------------------------------------------------------------------
  // What the schedule guarantees about the order of invocations

  /** Step `k` dispatches, under handle `h`, a job of which `inv` is a part. */
  ghost predicate DispatchesAt(steps: seq<Step>, k: int, h: Handle, inv: Invocation) {
    && 0 <= k < |steps|
    && steps[k].Round?
    && exists i :: 0 <= i < |steps[k].dispatches|
         && steps[k].dispatches[i].handle == h
         && inv in JobInvocations(steps[k].dispatches[i].job)
  }

  /** Step `k` blocks until the job under `h` has finished. */
  ghost predicate AwaitsAt(steps: seq<Step>, k: int, h: Handle) {
    0 <= k < |steps| && steps[k].Round? && h in steps[k].awaits
  }

  /** `a` comes before `b` in one dispatched chain. */
  ghost predicate ChainedBefore(steps: seq<Step>, a: Invocation, b: Invocation) {
    exists k, i, x, y ::
      && 0 <= k < |steps| && steps[k].Round?
      && 0 <= i < |steps[k].dispatches|
      && steps[k].dispatches[i].job.Chain?
      && 0 <= x < y < |steps[k].dispatches[i].job.links|
      && steps[k].dispatches[i].job.links[x] == a
      && steps[k].dispatches[i].job.links[y] == b
  }

  /** `b` cannot start before `a` has finished: they are ordered within a chain, or the job
      holding `a` is awaited by the orchestrator before the job holding `b` is dispatched. */
  ghost predicate RunsBefore(steps: seq<Step>, a: Invocation, b: Invocation) {
    || ChainedBefore(steps, a, b)
    || exists k1, k, k2, ha, hb ::
         && k1 <= k < k2
         && DispatchesAt(steps, k1, ha, a)
         && AwaitsAt(steps, k, ha)
         && DispatchesAt(steps, k2, hb, b)
  }
}
