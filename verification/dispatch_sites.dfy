/** Where each invocation of a run is dispatched. Every handle of a laid-out schedule names
    one dispatch, and, over a list of distinct state ids, every invocation is one link of
    one dispatched job. So `RunsBefore` facts of a run, which are stated through one
    dispatch of each side, hold for every dispatch of the later invocation. */
module DispatchSites {
  import opened Wrappers
  import opened Calendar
  import opened IsoFormat
  import opened MonthWindow
  import opened Registry
  import opened Invocations
  import opened AggregationPlan
  import opened PlanProperties
  import opened RunProperties

  // ---------------------------------------------------------------------------------------
  // Occurrences, uniqueness, and the strong reading of `RunsBefore`

  /** Link `x` of the `i`-th job dispatched by step `k` is `inv`. */
  ghost predicate Occurs(steps: seq<Step>, inv: Invocation, k: int, i: int, x: int) {
    && 0 <= k < |steps| && steps[k].Round?
    && 0 <= i < |steps[k].dispatches|
    && 0 <= x < |JobInvocations(steps[k].dispatches[i].job)|
    && JobInvocations(steps[k].dispatches[i].job)[x] == inv
  }

  /** `inv` is at most one link of at most one dispatched job. */
  ghost predicate DispatchedOnce(steps: seq<Step>, inv: Invocation) {
    forall k, i, x, k', i', x' ::
      Occurs(steps, inv, k, i, x) && Occurs(steps, inv, k', i', x') ==> k == k' && i == i' && x == x'
  }

  /** The `i`-th dispatch of step `k` exists. */
  ghost predicate IsDispatch(steps: seq<Step>, k: int, i: int) {
    0 <= k < |steps| && steps[k].Round? && 0 <= i < |steps[k].dispatches|
  }

  /** No two dispatches share a handle, so awaiting a handle waits for one job. */
  ghost predicate HandlesUnique(steps: seq<Step>) {
    forall k, i, k', i' ::
      IsDispatch(steps, k, i) && IsDispatch(steps, k', i')
      && steps[k].dispatches[i].handle == steps[k'].dispatches[i'].handle
      ==> k == k' && i == i'
  }

  /** Every dispatch of `b` waits for `a`: either `a` is an earlier link of the same chain,
      or some job holding `a` is awaited at or after its own step and before the step that
      dispatches `b`. */
  ghost predicate StartsAfter(steps: seq<Step>, a: Invocation, b: Invocation) {
    forall k2, i2, y :: Occurs(steps, b, k2, i2, y) ==>
      || (exists x :: 0 <= x < y && JobInvocations(steps[k2].dispatches[i2].job)[x] == a)
      || (exists k1, i1, x1, k ::
            && k1 <= k < k2
            && Occurs(steps, a, k1, i1, x1)
            && AwaitsAt(steps, k, steps[k1].dispatches[i1].handle))
  }

  /** Every `RunsBefore` fact of `steps` holds for every dispatch of its later invocation,
      and every awaited handle names one job. */
  ghost predicate OrderIsStrict(steps: seq<Step>) {
    && HandlesUnique(steps)
    && forall a, b :: RunsBefore(steps, a, b) ==> StartsAfter(steps, a, b)
  }

  /** When `b` is dispatched once, the one dispatch `RunsBefore` speaks of is all of them. */
  lemma OnceStartsAfter(steps: seq<Step>, a: Invocation, b: Invocation)
    requires DispatchedOnce(steps, b) && RunsBefore(steps, a, b)
    ensures StartsAfter(steps, a, b)
  {
    if ChainedBefore(steps, a, b) {
      ChainedStartsAfter(steps, a, b);
    } else {
      JoinedStartsAfter(steps, a, b);
    }
  }

  lemma ChainedStartsAfter(steps: seq<Step>, a: Invocation, b: Invocation)
    requires DispatchedOnce(steps, b) && ChainedBefore(steps, a, b)
    ensures StartsAfter(steps, a, b)
  {
    var k, i, x, y :| && 0 <= k < |steps| && steps[k].Round?
                      && 0 <= i < |steps[k].dispatches|
                      && steps[k].dispatches[i].job.Chain?
                      && 0 <= x < y < |steps[k].dispatches[i].job.links|
                      && steps[k].dispatches[i].job.links[x] == a
                      && steps[k].dispatches[i].job.links[y] == b;
    assert Occurs(steps, b, k, i, y);
    forall k2, i2, y2 | Occurs(steps, b, k2, i2, y2)
      ensures exists x2 :: 0 <= x2 < y2 && JobInvocations(steps[k2].dispatches[i2].job)[x2] == a
    {
      assert JobInvocations(steps[k2].dispatches[i2].job)[x] == a;
    }
  }

  lemma JoinedStartsAfter(steps: seq<Step>, a: Invocation, b: Invocation)
    requires DispatchedOnce(steps, b)
    requires exists k1, k, k2, ha, hb ::
      && k1 <= k < k2
      && DispatchesAt(steps, k1, ha, a)
      && AwaitsAt(steps, k, ha)
      && DispatchesAt(steps, k2, hb, b)
    ensures StartsAfter(steps, a, b)
  {
    var k1, k, k3, ha, hb :| && k1 <= k < k3
                             && DispatchesAt(steps, k1, ha, a)
                             && AwaitsAt(steps, k, ha)
                             && DispatchesAt(steps, k3, hb, b);
    var i3 :| 0 <= i3 < |steps[k3].dispatches| && steps[k3].dispatches[i3].handle == hb
              && b in JobInvocations(steps[k3].dispatches[i3].job);
    var y3 :| 0 <= y3 < |JobInvocations(steps[k3].dispatches[i3].job)|
              && JobInvocations(steps[k3].dispatches[i3].job)[y3] == b;
    assert Occurs(steps, b, k3, i3, y3);
    var i1 :| 0 <= i1 < |steps[k1].dispatches| && steps[k1].dispatches[i1].handle == ha
              && a in JobInvocations(steps[k1].dispatches[i1].job);
    var x1 :| 0 <= x1 < |JobInvocations(steps[k1].dispatches[i1].job)|
              && JobInvocations(steps[k1].dispatches[i1].job)[x1] == a;
    assert Occurs(steps, a, k1, i1, x1);
  }

  // ---------------------------------------------------------------------------------------
  // Where each handle is dispatched

  /** The step that dispatches handle `h` in a schedule of `months` months. */
  function HandleStep(h: Handle, months: nat): int {
    match h
    case DailyH(m) => 3 + 4 * m
    case FormH(m, _) => 3 + 4 * m
    case ChildH(m) => 4 + 4 * m
    case CcsH(m) => 4 + 4 * m
    case AwcH(m) => 5 + 4 * m
    case MbtH(m, _) => 6 + 4 * m
    case WeeklyH => 3 + 4 * months
    case TailH => 3 + 4 * months
  }

  /** The place of handle `h` among the dispatches of its step; the tail chain comes second
      on a Saturday, after the weekly aggregation. */
  function HandleIndex(h: Handle, saturday: bool): int {
    match h
    case DailyH(_) => 0
    case FormH(_, i) => 1 + i
    case ChildH(_) => 0
    case CcsH(_) => 1
    case AwcH(_) => 0
    case MbtH(_, i) => i
    case WeeklyH => 0
    case TailH => if saturday then 1 else 0
  }

  /** Each dispatch of step `j` of month `m` carries a handle of month `m` that names that
      step and that place. */
  lemma MonthHandleAt(steps: seq<Step>, o: int, m: nat, md: Date, states: seq<string>, j: int, i: int)
    requires Valid(md) && MonthAt(steps, o, m, md, states) && 0 <= j < 4
    requires steps[o + j].Round? && 0 <= i < |steps[o + j].dispatches|
    ensures var h := steps[o + j].dispatches[i].handle;
      && !h.WeeklyH? && !h.TailH? && h.m == m
      && HandleStep(h, 0) == 3 + 4 * m + j
      && HandleIndex(h, false) == i
  {
    var r := MonthSteps(m, md, states)[j];
    assert steps[o + j] == r;
    if j == 0 {
      FirstRoundAt(steps, o, m, md, states);
      if i > 0 {
        var stageOne := StageOne(md, states);
        assert r.dispatches[i] == NumberedForms(m, stageOne)[i - 1];
      }
    } else if j == 3 {
      MbtRoundAt(steps, o, m, md, states);
    }
  }

  /** The tail dispatches the weekly aggregation first on a Saturday, then the tail chain. */
  lemma TailHandleAt(steps: seq<Step>, k: int, date: Date, i: int)
    requires Valid(date) && 0 <= k < |steps| && steps[k] == TailStep(date)
    requires 0 <= i < |steps[k].dispatches|
    ensures var h := steps[k].dispatches[i].handle;
      (h.WeeklyH? || h.TailH?) && HandleIndex(h, Weekday(date) == Saturday) == i
  {
  }

  /** In a laid-out schedule the handle of a dispatch tells its step and its place. */
  lemma HandleSiteAt(steps: seq<Step>, date: Date, w: seq<Date>, states: seq<string>, k: int, i: int)
    requires Valid(date) && forall x :: 0 <= x < |w| ==> Valid(w[x])
    requires LaidOut(steps, date, w, states) && IsDispatch(steps, k, i)
    ensures var h := steps[k].dispatches[i].handle;
      HandleStep(h, |w|) == k && HandleIndex(h, Weekday(date) == Saturday) == i
  {
    var m, j := LocateStep(steps, date, w, states, k);
    if k == |steps| - 1 {
      TailHandleAt(steps, k, date, i);
    } else {
      MonthHandleAt(steps, 3 + 4 * m, m, w[m], states, j, i);
    }
  }

  /** Every handle of a laid-out schedule is dispatched once. */
  lemma LaidOutHandlesUnique(steps: seq<Step>, date: Date, w: seq<Date>, states: seq<string>)
    requires Valid(date) && forall x :: 0 <= x < |w| ==> Valid(w[x])
    requires LaidOut(steps, date, w, states)
    ensures HandlesUnique(steps)
  {
    forall k, i, k', i' |
      IsDispatch(steps, k, i) && IsDispatch(steps, k', i')
      && steps[k].dispatches[i].handle == steps[k'].dispatches[i'].handle
      ensures k == k' && i == i'
    {
      HandleSiteAt(steps, date, w, states, k, i);
      HandleSiteAt(steps, date, w, states, k', i');
    }
  }

  // ---------------------------------------------------------------------------------------
  // Where each invocation is dispatched

  /** A dispatch named by its handle, and a link of its job. */
  datatype Site = Site(handle: Handle, link: int)

  /** The first place of `s` in `states`, or `|states|` when it is absent. */
  function IndexOf(states: seq<string>, s: string): (r: nat)
    ensures r <= |states|
    ensures r < |states| <==> s in states
    ensures r < |states| ==> states[r] == s
    ensures forall j :: 0 <= j < r ==> states[j] != s
  {
    if states == [] then 0 else if states[0] == s then 0 else 1 + IndexOf(states[1..], s)
  }

  lemma IndexOfDistinct(states: seq<string>, r: int)
    requires Distinct(states) && 0 <= r < |states|
    ensures IndexOf(states, states[r]) == r
  {
  }

  /** The place, in a window of `months` months ending with the month of `date`, of the
      month of `d`. */
  function MonthOf(d: Date, date: Date, months: nat): nat {
    var x := MonthIndex(d) - MonthIndex(date) + months - 1;
    if x < 0 then 0 else x
  }

  function MonthOfText(text: string, date: Date, months: nat): nat {
    match ParseDate(text)
    case Some(d) => MonthOf(d, date, months)
    case None => 0
  }

  function ArgMonth(arg: DateArg, date: Date, months: nat): nat {
    match arg
    case DateValue(d) => MonthOf(d, date, months)
    case DateText(text) => MonthOfText(text, date, months)
  }

  /** Where the schedule dispatches global stage `g` of month `m`, over `n` states. */
  function GlobalSite(g: GlobalStage, m: nat, n: nat): Site {
    match g
    case AggLsTable => Site(AwcH(m), 3 * n + 1)
    case UpdateMonthsTable => Site(FormH(m, 11 * n), 0)
    case DailyAttendanceTable => Site(DailyH(m), 0)
    case AggChildHealthTable => Site(ChildH(m), 1)
    case CcsRecordMonthlyTable => Site(CcsH(m), 0)
    case AggCcsRecordTable => Site(CcsH(m), 1)
    case AggAwcTable => Site(AwcH(m), 0)
    case AggAwcTableWeekly => Site(WeeklyH, 0)
    case AggregateAwcDaily => Site(TailH, 0)
  }

  /** Where the schedule of a run for `date` over `months` months and the state ids `states`
      dispatches `inv`, read off the invocation alone: its stage, its date argument and its
      state. Invocations the schedule never makes get an arbitrary site. */
  function InvSite(inv: Invocation, date: Date, months: nat, states: seq<string>): Site {
    match inv
    case StateTask(scope, arg, name) =>
      (match LookupStateStage(name)
       case None => Site(TailH, 0)
       case Some(f) => StateSite(f, scope, arg, date, months, states))
    case GlobalTask(arg, name) =>
      (match LookupGlobalStage(name)
       case None => Site(TailH, 0)
       case Some(g) => GlobalSite(g, ArgMonth(arg, date, months), |states|))
    case CreateMbt(s, month) => Site(MbtH(MonthOfText(month, date, months), IndexOf(states, s)), 0)
    case BustAwcCache => Site(TailH, 1)
    case EmailDashboardTeam(_) => Site(TailH, 2)
  }

  /** Where the schedule dispatches state-scoped stage `f`: the child-health monthly table
      over all states in the second round, a stage-1 form (given the `date` object) in the
      first round, a Lady-Supervisor form (given the date text) in the AWC chain. */
  function StateSite(f: StateStage, scope: StateScope, arg: DateArg, date: Date, months: nat,
                     states: seq<string>): Site
  {
    match scope
    case AllStates(_) => Site(ChildH(ArgMonth(arg, date, months)), 0)
    case OneState(s) =>
      match arg
      case DateValue(md) => Site(FormH(MonthOf(md, date, months), FormPlace(f, |states|, IndexOf(states, s))), 0)
      case DateText(day) => Site(AwcH(MonthOfText(day, date, months)), LsOffset(f, |states|) + IndexOf(states, s))
  }

  /** The place of form `f` for the state at place `r` in the stage-1 fan-out over `n` states. */
  function FormPlace(f: StateStage, n: nat, r: nat): nat {
    var q: nat := StateStageIndex(f);
    q * n + r
  }

  /** The dates of month `m` of the window name that month: the date itself, its text, and
      the text of the first of its month. */
  lemma MonthOfDate(md: Date, date: Date, months: nat, m: nat)
    requires MonthIndex(md) == MonthIndex(date) - (months - 1 - m)
    ensures MonthOf(md, date, months) == m
  {
  }

  lemma MonthOfDay(md: Date, date: Date, months: nat, m: nat)
    requires Valid(md) && MonthIndex(md) == MonthIndex(date) - (months - 1 - m)
    ensures MonthOfText(FormatDate(md), date, months) == m
  {
    ParseFormattedDate(md);
  }

  lemma MonthOfMonthStart(md: Date, date: Date, months: nat, m: nat)
    requires Valid(md) && MonthIndex(md) == MonthIndex(date) - (months - 1 - m)
    ensures MonthOfText(FormatMonthStart(md), date, months) == m
  {
    ParseFormattedDate(FirstOfMonth(md));
  }

  /** Aggregation `q` of the stage-1 fan-out for state `r` sits at `q * |states| + r`. */
  lemma {:induction false} FanOutAt(forms: seq<StateStage>, md: Date, states: seq<string>, q: int, r: int)
    requires 0 <= q < |forms| && 0 <= r < |states|
    ensures 0 <= q * |states| + r < |FanOut(forms, md, states)|
    ensures FanOut(forms, md, states)[q * |states| + r] == FormInv(forms[q], states[r], md)
    decreases q
  {
    var n := |states|;
    var head := PerState(forms[0], md, states);
    var tail := FanOut(forms[1..], md, states);
    assert FanOut(forms, md, states) == head + tail;
    if q > 0 {
      FanOutAt(forms[1..], md, states, q - 1, r);
      NextBlock(q, n, r);
    }
  }

  lemma NextBlock(q: int, n: int, r: int)
    ensures q * n + r == n + ((q - 1) * n + r)
  {
  }

  lemma StageOneIndex(q: int)
    requires 0 <= q < 11
    ensures StateStageIndex(StageOneForms[q]) == q
  {
  }

  lemma GlobalInvSite(g: GlobalStage, day: string, date: Date, months: nat, states: seq<string>)
    ensures InvSite(GlobalInv(g, day), date, months, states)
      == GlobalSite(g, MonthOfText(day, date, months), |states|)
  {
    GlobalNameFound(g);
  }

  lemma FormInvSite(f: StateStage, s: string, md: Date, date: Date, months: nat, states: seq<string>)
    ensures InvSite(FormInv(f, s, md), date, months, states)
      == Site(FormH(MonthOf(md, date, months), FormPlace(f, |states|, IndexOf(states, s))), 0)
  {
    StateNameFound(f);
  }

  lemma StateInvSite(f: StateStage, s: string, day: string, date: Date, months: nat, states: seq<string>)
    ensures InvSite(StateInv(f, s, day), date, months, states)
      == Site(AwcH(MonthOfText(day, date, months)), LsOffset(f, |states|) + IndexOf(states, s))
  {
    StateNameFound(f);
  }

  lemma ChildMonthlySite(day: string, date: Date, months: nat, states: seq<string>)
    ensures InvSite(ChildMonthlyInv(states, day), date, months, states)
      == Site(ChildH(MonthOfText(day, date, months)), 0)
  {
    StateNameFound(ChildHealthMonthlyTable);
  }

  /** Link `x` of the `i`-th job of the dispatch list `ds` is `inv`. */
  ghost predicate LinkIn(ds: seq<Dispatch>, i: int, x: int, inv: Invocation) {
    0 <= i < |ds| && 0 <= x < |JobInvocations(ds[i].job)| && JobInvocations(ds[i].job)[x] == inv
  }

  /** The site of whatever the month's first round dispatches is read off the invocation. */
  lemma FirstRoundSite(ds: seq<Dispatch>, m: nat, md: Date, states: seq<string>,
                       date: Date, months: nat, i: int, x: int, inv: Invocation)
    requires Valid(md) && MonthIndex(md) == MonthIndex(date) - (months - 1 - m) && Distinct(states)
    requires ds == [Dispatch(DailyH(m), Single(GlobalInv(DailyAttendanceTable, FormatDate(md))))]
                   + NumberedForms(m, StageOne(md, states))
    requires LinkIn(ds, i, x, inv)
    ensures Site(ds[i].handle, x) == InvSite(inv, date, months, states)
  {
    if i == 0 {
      assert inv == GlobalInv(DailyAttendanceTable, FormatDate(md));
      MonthOfDay(md, date, months, m);
      GlobalInvSite(DailyAttendanceTable, FormatDate(md), date, months, states);
    } else {
      assert ds[i] == Dispatch(FormH(m, i - 1), Single(StageOne(md, states)[i - 1]));
      StageOneSite(md, states, date, months, m, i - 1);
    }
  }

  /** Entry `p` of stage 1 is dispatched under `FormH(m, p)`. */
  lemma StageOneSite(md: Date, states: seq<string>, date: Date, months: nat, m: nat, p: int)
    requires Valid(md) && MonthIndex(md) == MonthIndex(date) - (months - 1 - m) && Distinct(states)
    requires 0 <= p < |StageOne(md, states)|
    ensures Site(FormH(m, p), 0) == InvSite(StageOne(md, states)[p], date, months, states)
  {
    var n := |states|;
    if p < 11 * n {
      var q, r := FanOutPlace(p, n);
      StageOneFormSite(md, states, date, months, m, q, r);
    } else {
      UpdateMonthsSite(md, states, date, months, m);
    }
  }

  /** Entry `p` of a fan-out of eleven forms over `n` states: form `q`, state `r`. */
  lemma FanOutPlace(p: int, n: int) returns (q: int, r: int)
    requires 0 <= p < 11 * n
    ensures 0 <= q < 11 && 0 <= r < n && p == q * n + r
  {
    q, r := p / n, p % n;
  }

  lemma UpdateMonthsSite(md: Date, states: seq<string>, date: Date, months: nat, m: nat)
    requires Valid(md) && MonthIndex(md) == MonthIndex(date) - (months - 1 - m)
    ensures |StageOne(md, states)| == 11 * |states| + 1
    ensures Site(FormH(m, 11 * |states|), 0)
      == InvSite(StageOne(md, states)[11 * |states|], date, months, states)
  {
    MonthOfDay(md, date, months, m);
    assert StageOne(md, states)[11 * |states|] == GlobalInv(UpdateMonthsTable, FormatDate(md));
    GlobalInvSite(UpdateMonthsTable, FormatDate(md), date, months, states);
  }

  lemma StageOneFormSite(md: Date, states: seq<string>, date: Date, months: nat, m: nat, q: int, r: int)
    requires Valid(md) && MonthIndex(md) == MonthIndex(date) - (months - 1 - m) && Distinct(states)
    requires 0 <= q < 11 && 0 <= r < |states|
    ensures 0 <= q * |states| + r < |StageOne(md, states)|
    ensures Site(FormH(m, q * |states| + r), 0)
      == InvSite(StageOne(md, states)[q * |states| + r], date, months, states)
  {
    StageOneEntry(md, states, q, r);
    MonthOfDate(md, date, months, m);
    StageOneIndex(q);
    IndexOfDistinct(states, r);
    FormInvSite(StageOneForms[q], states[r], md, date, months, states);
  }

  /** Stage 1 holds form `q` for the state at place `r` at `q * |states| + r`. */
  lemma StageOneEntry(md: Date, states: seq<string>, q: int, r: int)
    requires Valid(md) && 0 <= q < 11 && 0 <= r < |states|
    ensures 0 <= q * |states| + r < |StageOne(md, states)|
    ensures StageOne(md, states)[q * |states| + r] == FormInv(StageOneForms[q], states[r], md)
  {
    var p := q * |states| + r;
    FanOutAt(StageOneForms, md, states, q, r);
    assert StageOne(md, states)[p] == FanOut(StageOneForms, md, states)[p];
  }

  lemma SecondRoundSite(ds: seq<Dispatch>, m: nat, md: Date, states: seq<string>,
                        date: Date, months: nat, i: int, x: int, inv: Invocation)
    requires Valid(md) && MonthIndex(md) == MonthIndex(date) - (months - 1 - m)
    requires ds == [Dispatch(ChildH(m), Chain(ChildChain(FormatDate(md), states))),
                    Dispatch(CcsH(m), Chain(CcsChain(FormatDate(md))))]
    requires LinkIn(ds, i, x, inv)
    ensures Site(ds[i].handle, x) == InvSite(inv, date, months, states)
  {
    if i == 0 {
      ChildChainSite(md, states, date, months, m, x);
    } else {
      CcsChainSite(md, states, date, months, m, x);
    }
  }

  lemma ChildChainSite(md: Date, states: seq<string>, date: Date, months: nat, m: nat, x: int)
    requires Valid(md) && MonthIndex(md) == MonthIndex(date) - (months - 1 - m) && 0 <= x < 2
    ensures Site(ChildH(m), x) == InvSite(ChildChain(FormatDate(md), states)[x], date, months, states)
  {
    var day := FormatDate(md);
    MonthOfDay(md, date, months, m);
    if x == 0 {
      ChildMonthlySite(day, date, months, states);
    } else {
      GlobalInvSite(AggChildHealthTable, day, date, months, states);
    }
  }

  lemma CcsChainSite(md: Date, states: seq<string>, date: Date, months: nat, m: nat, x: int)
    requires Valid(md) && MonthIndex(md) == MonthIndex(date) - (months - 1 - m) && 0 <= x < 2
    ensures Site(CcsH(m), x) == InvSite(CcsChain(FormatDate(md))[x], date, months, states)
  {
    var day := FormatDate(md);
    MonthOfDay(md, date, months, m);
    if x == 0 {
      GlobalInvSite(CcsRecordMonthlyTable, day, date, months, states);
    } else {
      GlobalInvSite(AggCcsRecordTable, day, date, months, states);
    }
  }

  /** Link `x` strictly inside the AWC chain belongs to one Lady-Supervisor form and one state. */
  lemma AwcChainLink(n: int, x: int) returns (f: StateStage, r: int)
    requires 1 <= x <= 3 * n
    ensures f in LsForms && 0 <= r < n && x == LsOffset(f, n) + r
  {
    if x <= n {
      f, r := LsAwcMgtForm, x - 1;
    } else if x <= 2 * n {
      f, r := LsVhndForm, x - 1 - n;
    } else {
      f, r := BeneficiaryForm, x - 1 - 2 * n;
    }
  }

  lemma AwcRoundSite(ds: seq<Dispatch>, m: nat, md: Date, states: seq<string>,
                     date: Date, months: nat, i: int, x: int, inv: Invocation)
    requires Valid(md) && MonthIndex(md) == MonthIndex(date) - (months - 1 - m) && Distinct(states)
    requires ds == [Dispatch(AwcH(m), Chain(AwcChain(FormatDate(md), states)))]
    requires LinkIn(ds, i, x, inv)
    ensures Site(ds[i].handle, x) == InvSite(inv, date, months, states)
  {
    AwcLinkSite(md, states, date, months, m, x);
  }

  /** Link `x` of the month's AWC chain is dispatched under `AwcH(m)` at `x`. */
  lemma AwcLinkSite(md: Date, states: seq<string>, date: Date, months: nat, m: nat, x: int)
    requires Valid(md) && MonthIndex(md) == MonthIndex(date) - (months - 1 - m) && Distinct(states)
    requires 0 <= x < |AwcChain(FormatDate(md), states)|
    ensures Site(AwcH(m), x) == InvSite(AwcChain(FormatDate(md), states)[x], date, months, states)
  {
    var day := FormatDate(md);
    var n := |states|;
    MonthOfDay(md, date, months, m);
    AwcChainEnds(day, states);
    if x == 0 {
      GlobalInvSite(AggAwcTable, day, date, months, states);
    } else if x == 3 * n + 1 {
      GlobalInvSite(AggLsTable, day, date, months, states);
    } else {
      var f, r := AwcChainLink(n, x);
      LsLinkSite(day, states, date, months, m, f, r);
    }
  }

  lemma LsLinkSite(day: string, states: seq<string>, date: Date, months: nat, m: nat, f: StateStage, r: int)
    requires MonthOfText(day, date, months) == m && Distinct(states)
    requires f in LsForms && 0 <= r < |states|
    ensures 0 <= LsOffset(f, |states|) + r < |AwcChain(day, states)|
    ensures Site(AwcH(m), LsOffset(f, |states|) + r)
      == InvSite(AwcChain(day, states)[LsOffset(f, |states|) + r], date, months, states)
  {
    AwcChainPosition(day, states, f, r);
    IndexOfDistinct(states, r);
    StateInvSite(f, states[r], day, date, months, states);
  }

  lemma MbtRoundSite(ds: seq<Dispatch>, m: nat, md: Date, states: seq<string>,
                     date: Date, months: nat, i: int, x: int, inv: Invocation)
    requires Valid(md) && MonthIndex(md) == MonthIndex(date) - (months - 1 - m) && Distinct(states)
    requires ds == MbtDispatches(m, md, states)
    requires LinkIn(ds, i, x, inv)
    ensures Site(ds[i].handle, x) == InvSite(inv, date, months, states)
  {
    MonthOfMonthStart(md, date, months, m);
    IndexOfDistinct(states, i);
  }

  lemma TailSite(ds: seq<Dispatch>, date: Date, months: nat, states: seq<string>,
                 i: int, x: int, inv: Invocation)
    requires Valid(date) && ds == TailStep(date).dispatches
    requires LinkIn(ds, i, x, inv)
    ensures Site(ds[i].handle, x) == InvSite(inv, date, months, states)
  {
    var day := FormatDate(date);
    if ds[i].handle == WeeklyH {
      assert inv == GlobalInv(AggAwcTableWeekly, day);
      GlobalInvSite(AggAwcTableWeekly, day, date, months, states);
    } else {
      assert ds[i] == Dispatch(TailH, Chain(TailChain(day)));
      TailLinkSite(day, date, months, states, x);
    }
  }

  lemma TailLinkSite(day: string, date: Date, months: nat, states: seq<string>, x: int)
    requires 0 <= x < 3
    ensures Site(TailH, x) == InvSite(TailChain(day)[x], date, months, states)
  {
    if x == 0 {
      GlobalInvSite(AggregateAwcDaily, day, date, months, states);
    }
  }

  // ---------------------------------------------------------------------------------------
  // Uniqueness over a laid-out schedule and over a run

  /** Month `i` of `w` is `|w| - 1 - i` months before the month of `date`. */
  ghost predicate MonthsCounted(date: Date, w: seq<Date>) {
    forall i :: 0 <= i < |w| ==> MonthIndex(w[i]) == MonthIndex(date) - (|w| - 1 - i)
  }

  /** Wherever a laid-out schedule dispatches `inv`, it does so at the site `InvSite` reads
      off `inv`. */
  lemma OccursAtSite(steps: seq<Step>, date: Date, w: seq<Date>, states: seq<string>,
                     k: int, i: int, x: int, inv: Invocation)
    requires Valid(date) && forall y :: 0 <= y < |w| ==> Valid(w[y])
    requires LaidOut(steps, date, w, states) && MonthsCounted(date, w) && Distinct(states)
    requires Occurs(steps, inv, k, i, x)
    ensures Site(steps[k].dispatches[i].handle, x) == InvSite(inv, date, |w|, states)
  {
    var m, j := LocateStep(steps, date, w, states, k);
    if k == |steps| - 1 {
      assert steps[k] == TailStep(date);
      TailSite(steps[k].dispatches, date, |w|, states, i, x, inv);
    } else {
      MonthOccursAtSite(steps, date, w, states, m, j, i, x, inv);
    }
  }

  lemma MonthOccursAtSite(steps: seq<Step>, date: Date, w: seq<Date>, states: seq<string>,
                          m: int, j: int, i: int, x: int, inv: Invocation)
    requires forall y :: 0 <= y < |w| ==> Valid(w[y])
    requires MonthsCounted(date, w) && Distinct(states)
    requires 0 <= m < |w| && 0 <= j < 4 && MonthAt(steps, 3 + 4 * m, m, w[m], states)
    requires Occurs(steps, inv, 3 + 4 * m + j, i, x)
    ensures Site(steps[3 + 4 * m + j].dispatches[i].handle, x) == InvSite(inv, date, |w|, states)
  {
    assert MonthIndex(w[m]) == MonthIndex(date) - (|w| - 1 - m);
    MonthSite(steps, 3 + 4 * m, m, w[m], states, date, |w|, j, i, x, inv);
  }

  lemma MonthSite(steps: seq<Step>, o: int, m: nat, md: Date, states: seq<string>,
                  date: Date, months: nat, j: int, i: int, x: int, inv: Invocation)
    requires Valid(md) && MonthAt(steps, o, m, md, states) && 0 <= j < 4
    requires MonthIndex(md) == MonthIndex(date) - (months - 1 - m) && Distinct(states)
    requires Occurs(steps, inv, o + j, i, x)
    ensures Site(steps[o + j].dispatches[i].handle, x) == InvSite(inv, date, months, states)
  {
    if j == 0 {
      FirstRoundAt(steps, o, m, md, states);
      FirstRoundSite(steps[o].dispatches, m, md, states, date, months, i, x, inv);
    } else if j == 1 {
      SecondRoundAt(steps, o, m, md, states);
      SecondRoundSite(steps[o + 1].dispatches, m, md, states, date, months, i, x, inv);
    } else if j == 2 {
      AwcRoundAt(steps, o, m, md, states);
      AwcRoundSite(steps[o + 2].dispatches, m, md, states, date, months, i, x, inv);
    } else {
      MbtRoundAt(steps, o, m, md, states);
      MbtRoundSite(steps[o + 3].dispatches, m, md, states, date, months, i, x, inv);
    }
  }

  /** Over distinct state ids, a laid-out schedule dispatches every invocation at most once. */
  lemma LaidOutDispatchedOnce(steps: seq<Step>, date: Date, w: seq<Date>, states: seq<string>,
                              inv: Invocation)
    requires Valid(date) && forall y :: 0 <= y < |w| ==> Valid(w[y])
    requires LaidOut(steps, date, w, states) && MonthsCounted(date, w) && Distinct(states)
    ensures DispatchedOnce(steps, inv)
  {
    forall k, i, x, k', i', x' | Occurs(steps, inv, k, i, x) && Occurs(steps, inv, k', i', x')
      ensures k == k' && i == i' && x == x'
    {
      OccursAtSite(steps, date, w, states, k, i, x, inv);
      OccursAtSite(steps, date, w, states, k', i', x', inv);
      HandleSiteAt(steps, date, w, states, k, i);
      HandleSiteAt(steps, date, w, states, k', i');
    }
  }

  lemma RunMonthsCounted(date: Date, intervals: int)
    requires Valid(date) && CalculationDates(date, intervals).Success?
    ensures MonthsCounted(date, CalculationDates(date, intervals).value)
  {
    WindowShape(date, intervals);
  }

  /** Every handle of a run's schedule is dispatched once, so each `.get()` waits for one job. */
  lemma RunHandlesUnique(date: Date, intervals: int, states: seq<string>)
    requires Valid(date) && CalculationDates(date, intervals).Success?
    ensures var r := Run(date, intervals, true, states);
      r.Planned? && HandlesUnique(r.steps)
  {
    RunLaidOut(date, intervals, states);
    LaidOutHandlesUnique(Run(date, intervals, true, states).steps, date,
                         CalculationDates(date, intervals).value, states);
  }

  /** Over distinct state ids, a run dispatches every invocation at most once: one link of
      one job. */
  lemma RunDispatchesOnce(date: Date, intervals: int, states: seq<string>)
    requires Valid(date) && CalculationDates(date, intervals).Success? && Distinct(states)
    ensures var r := Run(date, intervals, true, states);
      r.Planned? && forall inv :: DispatchedOnce(r.steps, inv)
  {
    var w := CalculationDates(date, intervals).value;
    var steps := Run(date, intervals, true, states).steps;
    RunLaidOut(date, intervals, states);
    RunMonthsCounted(date, intervals);
    forall inv
      ensures DispatchedOnce(steps, inv)
    {
      LaidOutDispatchedOnce(steps, date, w, states, inv);
    }
  }

  /** With a state id listed twice, the run dispatches that state's first form aggregation
      of every month twice: the distinctness above is needed. */
  lemma RepeatedStateDispatchedTwice(date: Date, intervals: int, states: seq<string>, a: int, b: int)
    requires Valid(date) && CalculationDates(date, intervals).Success?
    requires |CalculationDates(date, intervals).value| > 0
    requires 0 <= a < b < |states| && states[a] == states[b]
    ensures var w := CalculationDates(date, intervals).value;
      var r := Run(date, intervals, true, states);
      r.Planned? && !DispatchedOnce(r.steps, FormInv(GmForms, states[a], w[0]))
  {
    var w := CalculationDates(date, intervals).value;
    var steps := Run(date, intervals, true, states).steps;
    RunLaidOut(date, intervals, states);
    assert MonthAt(steps, 3, 0, w[0], states);
    StateFormOccurs(steps, 3, 0, w[0], states, a);
    StateFormOccurs(steps, 3, 0, w[0], states, b);
  }

  /** The first round of a month dispatches the first form aggregation for the state at
      place `r` as the `1 + r`-th job. */
  lemma StateFormOccurs(steps: seq<Step>, o: int, m: nat, md: Date, states: seq<string>, r: int)
    requires Valid(md) && MonthAt(steps, o, m, md, states) && 0 <= r < |states|
    ensures Occurs(steps, FormInv(GmForms, states[r], md), o, 1 + r, 0)
  {
    FirstRoundAt(steps, o, m, md, states);
    StageOneEntry(md, states, 0, r);
    var stageOne := StageOne(md, states);
    assert steps[o].dispatches[1 + r] == Dispatch(FormH(m, r), Single(stageOne[r]));
  }

  /** Over distinct state ids, every `RunsBefore` fact of a run holds for every dispatch of
      its later invocation, and every handle the run awaits names one job. */
  lemma RunOrderIsStrict(date: Date, intervals: int, states: seq<string>)
    requires Valid(date) && CalculationDates(date, intervals).Success? && Distinct(states)
    ensures var r := Run(date, intervals, true, states);
      r.Planned? && OrderIsStrict(r.steps)
  {
    var steps := Run(date, intervals, true, states).steps;
    RunHandlesUnique(date, intervals, states);
    RunDispatchesOnce(date, intervals, states);
    forall a, b | RunsBefore(steps, a, b)
      ensures StartsAfter(steps, a, b)
    {
      OnceStartsAfter(steps, a, b);
    }
  }
}
