/** What the schedule of an aggregation run guarantees: which invocations stage 1 holds,
    which invocations cannot start before which others finish within and across months,
    what follows the last month, and that every stage name dispatched is a registry key. */
module PlanProperties {
  import opened Wrappers
  import opened Calendar
  import opened IsoFormat
  import opened MonthWindow
  import opened Registry
  import opened Invocations
  import opened TaskOutcome
  import opened AggregationPlan

  // ---------------------------------------------------------------------------------------
  // Stage 1 coverage

  lemma FormInvInjective(f: StateStage, g: StateStage, s: string, t: string, md: Date)
    ensures FormInv(f, s, md) == FormInv(g, t, md) <==> f == g && s == t
  {
    StateNameFound(f);
    StateNameFound(g);
  }

  lemma {:induction false} PerStateCount(g: StateStage, f: StateStage, s: string, md: Date,
                                         states: seq<string>)
    ensures multiset(PerState(g, md, states))[FormInv(f, s, md)]
      == if f == g then multiset(states)[s] else 0
    decreases |states|
  {
    if states != [] {
      var x := FormInv(g, states[0], md);
      var rest := PerState(g, md, states[1..]);
      var target := FormInv(f, s, md);
      PerStateCount(g, f, s, md, states[1..]);
      FormInvInjective(f, g, s, states[0], md);
      assert PerState(g, md, states) == [x] + rest;
      assert multiset(PerState(g, md, states))[target]
        == (if x == target then 1 else 0) + multiset(rest)[target];
      assert states == [states[0]] + states[1..];
      assert multiset(states)[s] == (if states[0] == s then 1 else 0) + multiset(states[1..])[s];
    }
  }

  predicate Distinct<T(==)>(xs: seq<T>) {
    forall i, j :: 0 <= i < j < |xs| ==> xs[i] != xs[j]
  }

  lemma {:induction false} FanOutCount(forms: seq<StateStage>, f: StateStage, s: string, md: Date,
                                       states: seq<string>)
    requires Distinct(forms)
    ensures multiset(FanOut(forms, md, states))[FormInv(f, s, md)]
      == if f in forms then multiset(states)[s] else 0
    decreases |forms|
  {
    if forms != [] {
      FanOutCount(forms[1..], f, s, md, states);
      PerStateCount(forms[0], f, s, md, states);
      assert forms == [forms[0]] + forms[1..];
      assert f == forms[0] ==> f !in forms[1..];
    }
  }

  lemma StageOneFormsDistinct()
    ensures |StageOneForms| == 11 && Distinct(StageOneForms)
  {
  }

  /** Stage 1 of a month holds, for each of the eleven form aggregations and each state,
      as many state-scoped invocations for that month as the state occurs in the list (so
      exactly one for a list without repeats), one `_update_months_table`, and nothing
      else: `11 * |states| + 1` invocations in all. */
  lemma StageOneCoverage(md: Date, states: seq<string>)
    requires Valid(md)
    ensures |StageOne(md, states)| == 11 * |states| + 1
    ensures forall f, s :: f in StageOneForms ==>
      multiset(StageOne(md, states))[FormInv(f, s, md)] == multiset(states)[s]
    ensures multiset(StageOne(md, states))[GlobalInv(UpdateMonthsTable, FormatDate(md))] == 1
    ensures forall inv :: inv in StageOne(md, states) ==>
      inv == GlobalInv(UpdateMonthsTable, FormatDate(md)) || IsFormOf(inv, StageOneForms, md, states)
  {
    StageOneFormsDistinct();
    var fan := FanOut(StageOneForms, md, states);
    var upd := GlobalInv(UpdateMonthsTable, FormatDate(md));
    assert StageOne(md, states) == fan + [upd];
    forall f, s | f in StageOneForms
      ensures multiset(StageOne(md, states))[FormInv(f, s, md)] == multiset(states)[s]
    {
      FanOutCount(StageOneForms, f, s, md, states);
    }
    assert upd !in fan;
  }

  // ---------------------------------------------------------------------------------------
  // Ordering within a month

  /** Every stage-1 job of the month is joined before either monthly chain starts. */
  ghost predicate StageOneJoinedBeforeChains(steps: seq<Step>, md: Date, states: seq<string>)
    requires Valid(md)
  {
    var day := FormatDate(md);
    && (forall f, s :: f in StageOneForms && s in states ==>
          && RunsBefore(steps, FormInv(f, s, md), ChildMonthlyInv(states, day))
          && RunsBefore(steps, FormInv(f, s, md), GlobalInv(CcsRecordMonthlyTable, day)))
    && RunsBefore(steps, GlobalInv(UpdateMonthsTable, day), ChildMonthlyInv(states, day))
    && RunsBefore(steps, GlobalInv(UpdateMonthsTable, day), GlobalInv(CcsRecordMonthlyTable, day))
  }

  /** The two two-step chains, and the joins the AWC chain waits for: both chains and the
      daily attendance. */
  ghost predicate ChainsJoinedBeforeAwc(steps: seq<Step>, day: string, states: seq<string>) {
    && RunsBefore(steps, ChildMonthlyInv(states, day), GlobalInv(AggChildHealthTable, day))
    && RunsBefore(steps, GlobalInv(CcsRecordMonthlyTable, day), GlobalInv(AggCcsRecordTable, day))
    && RunsBefore(steps, GlobalInv(DailyAttendanceTable, day), GlobalInv(AggAwcTable, day))
    && RunsBefore(steps, GlobalInv(AggChildHealthTable, day), GlobalInv(AggAwcTable, day))
    && RunsBefore(steps, GlobalInv(AggCcsRecordTable, day), GlobalInv(AggAwcTable, day))
  }

  /** The AWC chain runs `_agg_awc_table` first and `_agg_ls_table` last. */
  ghost predicate AwcChainBracketed(steps: seq<Step>, day: string, states: seq<string>) {
    forall f, s :: f in LsForms && s in states ==>
      && RunsBefore(steps, GlobalInv(AggAwcTable, day), StateInv(f, s, day))
      && RunsBefore(steps, StateInv(f, s, day), GlobalInv(AggLsTable, day))
  }

  /** In the AWC chain the AWC-management forms precede the VHND forms, which precede the
      beneficiary forms. */
  ghost predicate AwcChainFormsOrdered(steps: seq<Step>, day: string, states: seq<string>) {
    forall s, t :: s in states && t in states ==>
      && RunsBefore(steps, StateInv(LsAwcMgtForm, s, day), StateInv(LsVhndForm, t, day))
      && RunsBefore(steps, StateInv(LsVhndForm, s, day), StateInv(BeneficiaryForm, t, day))
  }

  /** In the AWC chain each Lady-Supervisor form visits the states in list order. */
  ghost predicate AwcChainStatesOrdered(steps: seq<Step>, day: string, states: seq<string>) {
    forall f, i, j :: f in LsForms && 0 <= i < j < |states| ==>
      RunsBefore(steps, StateInv(f, states[i], day), StateInv(f, states[j], day))
  }

  /** The MBT jobs of the month follow its joined AWC chain. */
  ghost predicate MbtAfterAwc(steps: seq<Step>, md: Date, states: seq<string>)
    requires Valid(md)
  {
    forall s :: s in states ==> RunsBefore(steps, GlobalInv(AggLsTable, FormatDate(md)), MbtInv(s, md))
  }

  /** The order the month of `md` imposes on its invocations. */
  ghost predicate MonthOrdered(steps: seq<Step>, md: Date, states: seq<string>)
    requires Valid(md)
  {
    && StageOneJoinedBeforeChains(steps, md, states)
    && ChainsJoinedBeforeAwc(steps, FormatDate(md), states)
    && AwcChainBracketed(steps, FormatDate(md), states)
    && AwcChainFormsOrdered(steps, FormatDate(md), states)
    && AwcChainStatesOrdered(steps, FormatDate(md), states)
    && MbtAfterAwc(steps, md, states)
  }

  /** The four steps of month `m` sit at `o .. o + 3` of `steps`. */
  ghost predicate MonthAt(steps: seq<Step>, o: int, m: nat, md: Date, states: seq<string>)
    requires Valid(md)
  {
    0 <= o && o + 4 <= |steps| && forall j :: 0 <= j < 4 ==> steps[o + j] == MonthSteps(m, md, states)[j]
  }

  lemma DispatchIntro(steps: seq<Step>, k: int, i: int, inv: Invocation)
    requires 0 <= k < |steps| && steps[k].Round?
    requires 0 <= i < |steps[k].dispatches|
    requires inv in JobInvocations(steps[k].dispatches[i].job)
    ensures DispatchesAt(steps, k, steps[k].dispatches[i].handle, inv)
  {
  }

  /** Two links of a dispatched chain run in chain order. */
  lemma ChainLinksOrdered(steps: seq<Step>, k: int, i: int, c: seq<Invocation>, x: int, y: int,
                          a: Invocation, b: Invocation)
    requires 0 <= k < |steps| && steps[k].Round?
    requires 0 <= i < |steps[k].dispatches| && steps[k].dispatches[i].job == Chain(c)
    requires 0 <= x < y < |c| && c[x] == a && c[y] == b
    ensures RunsBefore(steps, a, b)
  {
    assert ChainedBefore(steps, a, b);
  }

  lemma JoinIntro(steps: seq<Step>, k1: int, k: int, k2: int, ha: Handle, hb: Handle,
                  a: Invocation, b: Invocation)
    requires k1 <= k < k2
    requires DispatchesAt(steps, k1, ha, a) && AwaitsAt(steps, k, ha) && DispatchesAt(steps, k2, hb, b)
    ensures RunsBefore(steps, a, b)
  {
  }

  /** The dispatches and awaits of the four rounds of a month placed at `o`. */
  lemma MonthRounds(steps: seq<Step>, o: int, m: nat, md: Date, states: seq<string>)
    requires Valid(md) && MonthAt(steps, o, m, md, states)
    ensures var day := FormatDate(md);
      var stageOne := StageOne(md, states);
      && steps[o] == Round([Dispatch(DailyH(m), Single(GlobalInv(DailyAttendanceTable, day)))]
                             + NumberedForms(m, stageOne),
                           FormHandles(m, |stageOne|))
      && steps[o + 1] == Round([Dispatch(ChildH(m), Chain(ChildChain(day, states))),
                                Dispatch(CcsH(m), Chain(CcsChain(day)))],
                               [DailyH(m), CcsH(m), ChildH(m)])
      && steps[o + 2] == Round([Dispatch(AwcH(m), Chain(AwcChain(day, states)))], [AwcH(m)])
      && steps[o + 3] == Round(MbtDispatches(m, md, states), [])
  {
    FirstRoundAt(steps, o, m, md, states);
    SecondRoundAt(steps, o, m, md, states);
    AwcRoundAt(steps, o, m, md, states);
    MbtRoundAt(steps, o, m, md, states);
  }

  /** The month's first round: daily attendance and stage 1 dispatched, stage 1 awaited. */
  lemma FirstRoundAt(steps: seq<Step>, o: int, m: nat, md: Date, states: seq<string>)
    requires Valid(md) && MonthAt(steps, o, m, md, states)
    ensures var stageOne := StageOne(md, states);
      steps[o] == Round([Dispatch(DailyH(m), Single(GlobalInv(DailyAttendanceTable, FormatDate(md))))]
                          + NumberedForms(m, stageOne),
                        FormHandles(m, |stageOne|))
  {
    assert steps[o] == MonthSteps(m, md, states)[0];
  }

  /** The month's second round: the two monthly chains dispatched, both awaited together with
      the daily attendance. */
  lemma SecondRoundAt(steps: seq<Step>, o: int, m: nat, md: Date, states: seq<string>)
    requires Valid(md) && MonthAt(steps, o, m, md, states)
    ensures var day := FormatDate(md);
      steps[o + 1] == Round([Dispatch(ChildH(m), Chain(ChildChain(day, states))),
                             Dispatch(CcsH(m), Chain(CcsChain(day)))],
                            [DailyH(m), CcsH(m), ChildH(m)])
  {
    assert steps[o + 1] == MonthSteps(m, md, states)[1];
  }

  /** The month's last round: one MBT job per state, awaited by nobody. */
  lemma MbtRoundAt(steps: seq<Step>, o: int, m: nat, md: Date, states: seq<string>)
    requires Valid(md) && MonthAt(steps, o, m, md, states)
    ensures steps[o + 3] == Round(MbtDispatches(m, md, states), [])
  {
    assert steps[o + 3] == MonthSteps(m, md, states)[3];
  }

  /** The month's first round dispatches its daily attendance aggregation. */
  lemma DailyAt(steps: seq<Step>, o: int, m: nat, md: Date, states: seq<string>)
    requires Valid(md) && MonthAt(steps, o, m, md, states)
    ensures DispatchesAt(steps, o, DailyH(m), GlobalInv(DailyAttendanceTable, FormatDate(md)))
  {
    assert steps[o] == MonthSteps(m, md, states)[0];
    DispatchIntro(steps, o, 0, GlobalInv(DailyAttendanceTable, FormatDate(md)));
  }

  /** The month's third round dispatches the AWC chain and waits for it. */
  lemma AwcRoundAt(steps: seq<Step>, o: int, m: nat, md: Date, states: seq<string>)
    requires Valid(md) && MonthAt(steps, o, m, md, states)
    ensures steps[o + 2] == Round([Dispatch(AwcH(m), Chain(AwcChain(FormatDate(md), states)))], [AwcH(m)])
  {
    assert steps[o + 2] == MonthSteps(m, md, states)[2];
  }

  /** Every stage-1 invocation is dispatched in the month's first round and awaited there. */
  lemma StageOneJoinedInFirstRound(steps: seq<Step>, o: int, m: nat, md: Date, states: seq<string>,
                                   inv: Invocation)
    requires Valid(md) && MonthAt(steps, o, m, md, states)
    requires inv in StageOne(md, states)
    ensures exists h :: DispatchesAt(steps, o, h, inv) && AwaitsAt(steps, o, h)
  {
    FirstRoundAt(steps, o, m, md, states);
    var stageOne := StageOne(md, states);
    var i :| 0 <= i < |stageOne| && stageOne[i] == inv;
    var ds := steps[o].dispatches;
    assert ds[1 + i] == Dispatch(FormH(m, i), Single(inv));
    DispatchIntro(steps, o, 1 + i, inv);
    assert FormHandles(m, |stageOne|)[i] == FormH(m, i);
    assert AwaitsAt(steps, o, FormH(m, i));
  }

  /** What the month's second round dispatches, and the handles it awaits. */
  lemma SecondRoundJoins(steps: seq<Step>, o: int, m: nat, md: Date, states: seq<string>)
    requires Valid(md) && MonthAt(steps, o, m, md, states)
    ensures var day := FormatDate(md);
      && DispatchesAt(steps, o, DailyH(m), GlobalInv(DailyAttendanceTable, day))
      && DispatchesAt(steps, o + 1, ChildH(m), ChildMonthlyInv(states, day))
      && DispatchesAt(steps, o + 1, ChildH(m), GlobalInv(AggChildHealthTable, day))
      && DispatchesAt(steps, o + 1, CcsH(m), GlobalInv(CcsRecordMonthlyTable, day))
      && DispatchesAt(steps, o + 1, CcsH(m), GlobalInv(AggCcsRecordTable, day))
      && AwaitsAt(steps, o + 1, DailyH(m))
      && AwaitsAt(steps, o + 1, ChildH(m))
      && AwaitsAt(steps, o + 1, CcsH(m))
  {
    var day := FormatDate(md);
    DailyAt(steps, o, m, md, states);
    SecondRoundAt(steps, o, m, md, states);
    DispatchIntro(steps, o + 1, 0, ChildMonthlyInv(states, day));
    DispatchIntro(steps, o + 1, 0, GlobalInv(AggChildHealthTable, day));
    DispatchIntro(steps, o + 1, 1, GlobalInv(CcsRecordMonthlyTable, day));
    DispatchIntro(steps, o + 1, 1, GlobalInv(AggCcsRecordTable, day));
  }

  /** Each monthly chain runs its monthly table before its aggregate table. */
  lemma ChainsInSecondRound(steps: seq<Step>, o: int, m: nat, md: Date, states: seq<string>)
    requires Valid(md) && MonthAt(steps, o, m, md, states)
    ensures var day := FormatDate(md);
      && RunsBefore(steps, ChildMonthlyInv(states, day), GlobalInv(AggChildHealthTable, day))
      && RunsBefore(steps, GlobalInv(CcsRecordMonthlyTable, day), GlobalInv(AggCcsRecordTable, day))
  {
    var day := FormatDate(md);
    SecondRoundAt(steps, o, m, md, states);
    ChainLinksOrdered(steps, o + 1, 0, ChildChain(day, states), 0, 1,
                      ChildMonthlyInv(states, day), GlobalInv(AggChildHealthTable, day));
    ChainLinksOrdered(steps, o + 1, 1, CcsChain(day), 0, 1,
                      GlobalInv(CcsRecordMonthlyTable, day), GlobalInv(AggCcsRecordTable, day));
  }

  /** Stage 1 is joined before the two monthly chains start. */
  lemma StageOneBeforeChains(steps: seq<Step>, o: int, m: nat, md: Date, states: seq<string>)
    requires Valid(md) && MonthAt(steps, o, m, md, states)
    ensures var day := FormatDate(md);
      forall inv :: inv in StageOne(md, states) ==>
        && RunsBefore(steps, inv, ChildMonthlyInv(states, day))
        && RunsBefore(steps, inv, GlobalInv(CcsRecordMonthlyTable, day))
  {
    var day := FormatDate(md);
    SecondRoundJoins(steps, o, m, md, states);
    forall inv | inv in StageOne(md, states)
      ensures RunsBefore(steps, inv, ChildMonthlyInv(states, day))
      ensures RunsBefore(steps, inv, GlobalInv(CcsRecordMonthlyTable, day))
    {
      StageOneJoinedInFirstRound(steps, o, m, md, states, inv);
      var h :| DispatchesAt(steps, o, h, inv) && AwaitsAt(steps, o, h);
      JoinIntro(steps, o, o, o + 1, h, ChildH(m), inv, ChildMonthlyInv(states, day));
      JoinIntro(steps, o, o, o + 1, h, CcsH(m), inv, GlobalInv(CcsRecordMonthlyTable, day));
    }
  }

  lemma LsFanOutAt(f: StateStage, day: string, states: seq<string>, i: int)
    requires 0 <= i < |states|
    ensures |LsFanOut(f, day, states)| == |states|
    ensures LsFanOut(f, day, states)[i] == StateInv(f, states[i], day)
  {
  }

  /** Where the segment of Lady-Supervisor form `f` starts in an AWC chain over `n` states. */
  function LsOffset(f: StateStage, n: int): int {
    if f == LsAwcMgtForm then 1 else if f == LsVhndForm then 1 + n else 1 + 2 * n
  }

  /** The AWC chain opens with `_agg_awc_table` and closes with `_agg_ls_table`. */
  lemma AwcChainEnds(day: string, states: seq<string>)
    ensures var c := AwcChain(day, states);
      && |c| == 3 * |states| + 2
      && c[0] == GlobalInv(AggAwcTable, day)
      && c[3 * |states| + 1] == GlobalInv(AggLsTable, day)
  {
  }

  /** Each Lady-Supervisor form aggregation for the `i`-th state sits strictly between the two
      ends of the AWC chain, at the offset of its form plus `i`. */
  lemma AwcChainPosition(day: string, states: seq<string>, f: StateStage, i: int)
    requires f in LsForms && 0 <= i < |states|
    ensures var c := AwcChain(day, states);
      && |c| == 3 * |states| + 2
      && 0 < LsOffset(f, |states|) + i < |c| - 1
      && c[LsOffset(f, |states|) + i] == StateInv(f, states[i], day)
  {
    var a := LsFanOut(LsAwcMgtForm, day, states);
    var v := LsFanOut(LsVhndForm, day, states);
    var b := LsFanOut(BeneficiaryForm, day, states);
    var p1 := [GlobalInv(AggAwcTable, day)] + a;
    var p2 := p1 + v;
    var p3 := p2 + b;
    assert AwcChain(day, states) == p3 + [GlobalInv(AggLsTable, day)];
    LsFanOutAt(f, day, states, i);
    if f == LsAwcMgtForm {
      assert p3[1 + i] == a[i];
    } else if f == LsVhndForm {
      assert p3[|p1| + i] == v[i];
    } else {
      assert p3[|p2| + i] == b[i];
    }
  }

  /** The AWC chain starts after both monthly chains and the daily attendance are joined. */
  lemma AwcChainAfterJoins(steps: seq<Step>, o: int, m: nat, md: Date, states: seq<string>)
    requires Valid(md) && MonthAt(steps, o, m, md, states)
    ensures var day := FormatDate(md);
      && RunsBefore(steps, GlobalInv(DailyAttendanceTable, day), GlobalInv(AggAwcTable, day))
      && RunsBefore(steps, GlobalInv(AggChildHealthTable, day), GlobalInv(AggAwcTable, day))
      && RunsBefore(steps, GlobalInv(AggCcsRecordTable, day), GlobalInv(AggAwcTable, day))
  {
    var day := FormatDate(md);
    SecondRoundJoins(steps, o, m, md, states);
    AwcTableDispatched(steps, o, m, md, states);
    JoinIntro(steps, o, o + 1, o + 2, DailyH(m), AwcH(m),
              GlobalInv(DailyAttendanceTable, day), GlobalInv(AggAwcTable, day));
    JoinIntro(steps, o + 1, o + 1, o + 2, ChildH(m), AwcH(m),
              GlobalInv(AggChildHealthTable, day), GlobalInv(AggAwcTable, day));
    JoinIntro(steps, o + 1, o + 1, o + 2, CcsH(m), AwcH(m),
              GlobalInv(AggCcsRecordTable, day), GlobalInv(AggAwcTable, day));
  }

  /** The month's third round dispatches `_agg_awc_table` under the AWC handle. */
  lemma AwcTableDispatched(steps: seq<Step>, o: int, m: nat, md: Date, states: seq<string>)
    requires Valid(md) && MonthAt(steps, o, m, md, states)
    ensures DispatchesAt(steps, o + 2, AwcH(m), GlobalInv(AggAwcTable, FormatDate(md)))
  {
    AwcRoundAt(steps, o, m, md, states);
    AwcChainEnds(FormatDate(md), states);
    DispatchIntro(steps, o + 2, 0, GlobalInv(AggAwcTable, FormatDate(md)));
  }

  /** A dispatched AWC chain runs `_agg_awc_table` before, and `_agg_ls_table` after, every
      Lady-Supervisor form aggregation. */
  lemma AwcChainBrackets(steps: seq<Step>, k: int, day: string, states: seq<string>)
    requires 0 <= k < |steps| && steps[k].Round? && |steps[k].dispatches| > 0
    requires steps[k].dispatches[0].job == Chain(AwcChain(day, states))
    ensures AwcChainBracketed(steps, day, states)
  {
    forall f, s | f in LsForms && s in states
      ensures && RunsBefore(steps, GlobalInv(AggAwcTable, day), StateInv(f, s, day))
              && RunsBefore(steps, StateInv(f, s, day), GlobalInv(AggLsTable, day))
    {
      AwcChainBracketsAt(steps, k, day, states, f, s);
    }
  }

  lemma AwcChainBracketsAt(steps: seq<Step>, k: int, day: string, states: seq<string>,
                           f: StateStage, s: string)
    requires 0 <= k < |steps| && steps[k].Round? && |steps[k].dispatches| > 0
    requires steps[k].dispatches[0].job == Chain(AwcChain(day, states))
    requires f in LsForms && s in states
    ensures RunsBefore(steps, GlobalInv(AggAwcTable, day), StateInv(f, s, day))
    ensures RunsBefore(steps, StateInv(f, s, day), GlobalInv(AggLsTable, day))
  {
    var n := |states|;
    var c := AwcChain(day, states);
    AwcChainEnds(day, states);
    var i :| 0 <= i < n && states[i] == s;
    AwcChainPosition(day, states, f, i);
    var p := LsOffset(f, n) + i;
    ChainLinksOrdered(steps, k, 0, c, 0, p, GlobalInv(AggAwcTable, day), StateInv(f, s, day));
    ChainLinksOrdered(steps, k, 0, c, p, 3 * n + 1, StateInv(f, s, day), GlobalInv(AggLsTable, day));
  }

  /** In a dispatched AWC chain every AWC-management form runs before every VHND form, and
      every VHND form before every beneficiary form. */
  lemma AwcChainFormsInOrder(steps: seq<Step>, k: int, day: string, states: seq<string>)
    requires 0 <= k < |steps| && steps[k].Round? && |steps[k].dispatches| > 0
    requires steps[k].dispatches[0].job == Chain(AwcChain(day, states))
    ensures AwcChainFormsOrdered(steps, day, states)
  {
    forall s, t | s in states && t in states
      ensures && RunsBefore(steps, StateInv(LsAwcMgtForm, s, day), StateInv(LsVhndForm, t, day))
              && RunsBefore(steps, StateInv(LsVhndForm, s, day), StateInv(BeneficiaryForm, t, day))
    {
      AwcChainFormsInOrderAt(steps, k, day, states, s, t);
    }
  }

  lemma AwcChainFormsInOrderAt(steps: seq<Step>, k: int, day: string, states: seq<string>,
                               s: string, t: string)
    requires 0 <= k < |steps| && steps[k].Round? && |steps[k].dispatches| > 0
    requires steps[k].dispatches[0].job == Chain(AwcChain(day, states))
    requires s in states && t in states
    ensures RunsBefore(steps, StateInv(LsAwcMgtForm, s, day), StateInv(LsVhndForm, t, day))
    ensures RunsBefore(steps, StateInv(LsVhndForm, s, day), StateInv(BeneficiaryForm, t, day))
  {
    var n := |states|;
    var c := AwcChain(day, states);
    var i :| 0 <= i < n && states[i] == s;
    var j :| 0 <= j < n && states[j] == t;
    AwcChainPosition(day, states, LsAwcMgtForm, i);
    AwcChainPosition(day, states, LsVhndForm, i);
    AwcChainPosition(day, states, LsVhndForm, j);
    AwcChainPosition(day, states, BeneficiaryForm, j);
    ChainLinksOrdered(steps, k, 0, c, 1 + i, 1 + n + j,
                      StateInv(LsAwcMgtForm, s, day), StateInv(LsVhndForm, t, day));
    ChainLinksOrdered(steps, k, 0, c, 1 + n + i, 1 + 2 * n + j,
                      StateInv(LsVhndForm, s, day), StateInv(BeneficiaryForm, t, day));
  }

  /** In a dispatched AWC chain each Lady-Supervisor form visits the states in list order. */
  lemma AwcChainStatesInOrder(steps: seq<Step>, k: int, day: string, states: seq<string>)
    requires 0 <= k < |steps| && steps[k].Round? && |steps[k].dispatches| > 0
    requires steps[k].dispatches[0].job == Chain(AwcChain(day, states))
    ensures AwcChainStatesOrdered(steps, day, states)
  {
    forall f, i, j | f in LsForms && 0 <= i < j < |states|
      ensures RunsBefore(steps, StateInv(f, states[i], day), StateInv(f, states[j], day))
    {
      AwcChainStatesInOrderAt(steps, k, day, states, f, i, j);
    }
  }

  lemma AwcChainStatesInOrderAt(steps: seq<Step>, k: int, day: string, states: seq<string>,
                                f: StateStage, i: int, j: int)
    requires 0 <= k < |steps| && steps[k].Round? && |steps[k].dispatches| > 0
    requires steps[k].dispatches[0].job == Chain(AwcChain(day, states))
    requires f in LsForms && 0 <= i < j < |states|
    ensures RunsBefore(steps, StateInv(f, states[i], day), StateInv(f, states[j], day))
  {
    var n := |states|;
    AwcChainPosition(day, states, f, i);
    AwcChainPosition(day, states, f, j);
    ChainLinksOrdered(steps, k, 0, AwcChain(day, states), LsOffset(f, n) + i, LsOffset(f, n) + j,
                      StateInv(f, states[i], day), StateInv(f, states[j], day));
  }

  /** Each stage-1 form aggregation is joined before the two monthly chains start. */
  lemma StageOneFormsBeforeChains(steps: seq<Step>, o: int, m: nat, md: Date, states: seq<string>)
    requires Valid(md) && MonthAt(steps, o, m, md, states)
    ensures StageOneJoinedBeforeChains(steps, md, states)
  {
    StageOneCoverage(md, states);
    StageOneBeforeChains(steps, o, m, md, states);
    forall f, s | f in StageOneForms && s in states
      ensures FormInv(f, s, md) in StageOne(md, states)
    {
      assert multiset(StageOne(md, states))[FormInv(f, s, md)] > 0;
    }
    assert GlobalInv(UpdateMonthsTable, FormatDate(md)) in StageOne(md, states);
  }

  /** The MBT jobs of a month are dispatched only after its AWC chain has been joined. */
  lemma MbtAfterAwcChain(steps: seq<Step>, o: int, m: nat, md: Date, states: seq<string>)
    requires Valid(md) && MonthAt(steps, o, m, md, states)
    ensures MbtAfterAwc(steps, md, states)
  {
    var day := FormatDate(md);
    LsTableJoined(steps, o, m, md, states);
    forall s | s in states
      ensures RunsBefore(steps, GlobalInv(AggLsTable, day), MbtInv(s, md))
    {
      var i :| 0 <= i < |states| && states[i] == s;
      MbtDispatchAt(steps, o, m, md, states, i);
      JoinIntro(steps, o + 2, o + 2, o + 3, AwcH(m), MbtH(m, i), GlobalInv(AggLsTable, day), MbtInv(s, md));
    }
  }

  /** The month's `_agg_ls_table` is dispatched and awaited in its third round. */
  lemma LsTableJoined(steps: seq<Step>, o: int, m: nat, md: Date, states: seq<string>)
    requires Valid(md) && MonthAt(steps, o, m, md, states)
    ensures DispatchesAt(steps, o + 2, AwcH(m), GlobalInv(AggLsTable, FormatDate(md)))
    ensures AwaitsAt(steps, o + 2, AwcH(m))
  {
    AwcRoundAt(steps, o, m, md, states);
    AwcChainEnds(FormatDate(md), states);
    DispatchIntro(steps, o + 2, 0, GlobalInv(AggLsTable, FormatDate(md)));
  }

  /** The month's last round dispatches the MBT job of the `i`-th state under `MbtH(m, i)`. */
  lemma MbtDispatchAt(steps: seq<Step>, o: int, m: nat, md: Date, states: seq<string>, i: int)
    requires Valid(md) && MonthAt(steps, o, m, md, states) && 0 <= i < |states|
    ensures DispatchesAt(steps, o + 3, MbtH(m, i), MbtInv(states[i], md))
  {
    MbtRoundAt(steps, o, m, md, states);
    assert steps[o + 3].dispatches[i] == Dispatch(MbtH(m, i), Single(MbtInv(states[i], md)));
    DispatchIntro(steps, o + 3, i, MbtInv(states[i], md));
  }

  /** A month placed anywhere in a schedule imposes its whole order there. */
  lemma MonthOrderedAt(steps: seq<Step>, o: int, m: nat, md: Date, states: seq<string>)
    requires Valid(md) && MonthAt(steps, o, m, md, states)
    ensures MonthOrdered(steps, md, states)
  {
    var day := FormatDate(md);
    AwcRoundAt(steps, o, m, md, states);
    StageOneFormsBeforeChains(steps, o, m, md, states);
    ChainsInSecondRound(steps, o, m, md, states);
    AwcChainAfterJoins(steps, o, m, md, states);
    assert ChainsJoinedBeforeAwc(steps, day, states);
    AwcChainBrackets(steps, o + 2, day, states);
    AwcChainFormsInOrder(steps, o + 2, day, states);
    AwcChainStatesInOrder(steps, o + 2, day, states);
    MbtAfterAwcChain(steps, o, m, md, states);
  }
}
