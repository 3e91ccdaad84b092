/** What a month of the schedule hands to the queue, described independently of how the
    rounds are built: which invocations each month and the tail may dispatch, and which
    handles the orchestrator waits for. */
module PlanContents {
  import opened Wrappers
  import opened Calendar
  import opened IsoFormat
  import opened Registry
  import opened Invocations
  import opened TaskOutcome
  import opened AggregationPlan
  import opened PlanProperties

  /** The global stages a month runs. */
  const MonthGlobals: seq<GlobalStage> := [
    DailyAttendanceTable, UpdateMonthsTable, CcsRecordMonthlyTable, AggCcsRecordTable,
    AggChildHealthTable, AggAwcTable, AggLsTable
  ]

  /** The invocations the month of `md` may dispatch: its global stages for the month's
      date text, the stage-1 forms and the Lady-Supervisor forms of each state, the
      child-health monthly table over all states, and one MBT job per state. */
  ghost predicate OfMonth(inv: Invocation, md: Date, states: seq<string>)
    requires Valid(md)
  {
    var day := FormatDate(md);
    || inv == ChildMonthlyInv(states, day)
    || (exists g :: g in MonthGlobals && inv == GlobalInv(g, day))
    || (exists f, s :: f in StageOneForms && s in states && inv == FormInv(f, s, md))
    || (exists f, s :: f in LsForms && s in states && inv == StateInv(f, s, day))
    || (exists s :: s in states && inv == CreateMbt(s, FormatDate(FirstOfMonth(md))))
  }

  /** Every invocation of every job a step dispatches is one of the month's. */
  ghost predicate StepOfMonth(step: Step, md: Date, states: seq<string>)
    requires Valid(md)
  {
    step.Round? ==>
      forall i, inv :: 0 <= i < |step.dispatches| && inv in JobInvocations(step.dispatches[i].job)
        ==> OfMonth(inv, md, states)
  }

  /** The handles a step of a month waits for are its own stage-1, daily-attendance, chain
      and AWC handles, never an MBT handle nor a tail handle. */
  predicate JoinsOnlyMonthWork(step: Step, m: nat) {
    step.Round? ==>
      forall h :: h in step.awaits ==> !h.MbtH? && !h.WeeklyH? && !h.TailH? && h.m == m
  }

  lemma GlobalInvWellKeyed(g: GlobalStage, day: string)
    ensures WellKeyed(GlobalInv(g, day))
  {
    GlobalNameFound(g);
  }

  /** Every invocation a month may dispatch names a key of the registry it goes to. */
  lemma OfMonthWellKeyed(inv: Invocation, md: Date, states: seq<string>)
    requires Valid(md) && OfMonth(inv, md, states)
    ensures WellKeyed(inv)
  {
    var day := FormatDate(md);
    if exists g :: g in MonthGlobals && inv == GlobalInv(g, day) {
      var g :| g in MonthGlobals && inv == GlobalInv(g, day);
      GlobalInvWellKeyed(g, day);
    } else if exists f, s :: f in StageOneForms && s in states && inv == FormInv(f, s, md) {
      var f, s :| f in StageOneForms && s in states && inv == FormInv(f, s, md);
      StateNameFound(f);
    } else if exists f, s :: f in LsForms && s in states && inv == StateInv(f, s, day) {
      var f, s :| f in LsForms && s in states && inv == StateInv(f, s, day);
      StateNameFound(f);
    } else if inv == ChildMonthlyInv(states, day) {
      StateNameFound(ChildHealthMonthlyTable);
    }
  }

  /** No month dispatches the weekly AWC aggregation. */
  lemma WeeklyNotOfMonth(day: string, md: Date, states: seq<string>)
    requires Valid(md)
    ensures !OfMonth(GlobalInv(AggAwcTableWeekly, day), md, states)
  {
    var weekly := GlobalInv(AggAwcTableWeekly, day);
    forall g | g in MonthGlobals
      ensures weekly != GlobalInv(g, FormatDate(md))
    {
      GlobalNameFound(g);
      GlobalNameFound(AggAwcTableWeekly);
    }
  }

  // ---------------------------------------------------------------------------------------
  // The four rounds of a month, one by one

  lemma StageOneRoundOfMonth(steps: seq<Step>, o: int, m: nat, md: Date, states: seq<string>)
    requires Valid(md) && MonthAt(steps, o, m, md, states)
    ensures StepOfMonth(steps[o], md, states)
  {
    FirstRoundAt(steps, o, m, md, states);
    var day := FormatDate(md);
    var stageOne := StageOne(md, states);
    var fan := FanOut(StageOneForms, md, states);
    assert stageOne == fan + [GlobalInv(UpdateMonthsTable, day)];
    var ds := steps[o].dispatches;
    forall i, inv | 0 <= i < |ds| && inv in JobInvocations(ds[i].job)
      ensures OfMonth(inv, md, states)
    {
      if i == 0 {
        assert inv == GlobalInv(DailyAttendanceTable, day);
        assert DailyAttendanceTable in MonthGlobals;
      } else {
        assert ds[i] == NumberedForms(m, stageOne)[i - 1];
        assert inv == stageOne[i - 1];
        if i - 1 < |fan| {
          assert inv in fan;
        } else {
          assert UpdateMonthsTable in MonthGlobals;
        }
      }
    }
  }

  lemma ChainRoundOfMonth(steps: seq<Step>, o: int, m: nat, md: Date, states: seq<string>)
    requires Valid(md) && MonthAt(steps, o, m, md, states)
    ensures StepOfMonth(steps[o + 1], md, states)
  {
    SecondRoundAt(steps, o, m, md, states);
    var day := FormatDate(md);
    var ds := steps[o + 1].dispatches;
    forall i, inv | 0 <= i < |ds| && inv in JobInvocations(ds[i].job)
      ensures OfMonth(inv, md, states)
    {
      assert AggChildHealthTable in MonthGlobals && CcsRecordMonthlyTable in MonthGlobals;
      assert AggCcsRecordTable in MonthGlobals;
    }
  }

  /** What the AWC chain is made of: its two ends and one Lady-Supervisor form aggregation
      per form and state. */
  lemma AwcChainMember(day: string, states: seq<string>, inv: Invocation)
    requires inv in AwcChain(day, states)
    ensures || inv == GlobalInv(AggAwcTable, day)
            || inv == GlobalInv(AggLsTable, day)
            || exists f, i :: f in LsForms && 0 <= i < |states| && inv == StateInv(f, states[i], day)
  {
    var a := LsFanOut(LsAwcMgtForm, day, states);
    var v := LsFanOut(LsVhndForm, day, states);
    var b := LsFanOut(BeneficiaryForm, day, states);
    assert AwcChain(day, states) == [GlobalInv(AggAwcTable, day)] + a + v + b + [GlobalInv(AggLsTable, day)];
    if inv in a {
      var i :| 0 <= i < |a| && a[i] == inv;
      assert LsAwcMgtForm in LsForms;
    } else if inv in v {
      var i :| 0 <= i < |v| && v[i] == inv;
      assert LsVhndForm in LsForms;
    } else if inv in b {
      var i :| 0 <= i < |b| && b[i] == inv;
      assert BeneficiaryForm in LsForms;
    }
  }

  lemma AwcRoundOfMonth(steps: seq<Step>, o: int, m: nat, md: Date, states: seq<string>)
    requires Valid(md) && MonthAt(steps, o, m, md, states)
    ensures StepOfMonth(steps[o + 2], md, states)
  {
    AwcRoundAt(steps, o, m, md, states);
    var day := FormatDate(md);
    var ds := steps[o + 2].dispatches;
    assert AggAwcTable in MonthGlobals && AggLsTable in MonthGlobals;
    forall i, inv | 0 <= i < |ds| && inv in JobInvocations(ds[i].job)
      ensures OfMonth(inv, md, states)
    {
      AwcChainMember(day, states, inv);
      if inv != GlobalInv(AggAwcTable, day) && inv != GlobalInv(AggLsTable, day) {
        var f, x :| f in LsForms && 0 <= x < |states| && inv == StateInv(f, states[x], day);
        assert states[x] in states;
      }
    }
  }

  lemma MbtRoundOfMonth(steps: seq<Step>, o: int, m: nat, md: Date, states: seq<string>)
    requires Valid(md) && MonthAt(steps, o, m, md, states)
    ensures StepOfMonth(steps[o + 3], md, states)
  {
    MbtRoundAt(steps, o, m, md, states);
    var ds := steps[o + 3].dispatches;
    forall i, inv | 0 <= i < |ds| && inv in JobInvocations(ds[i].job)
      ensures OfMonth(inv, md, states)
    {
      assert inv == MbtInv(states[i], md);
      assert states[i] in states;
    }
  }

  /** The stage-1 round waits only for the month's stage-1 handles. */
  lemma FormHandlesOfMonth(m: nat, n: nat)
    ensures JoinsOnlyMonthWork(Round([], FormHandles(m, n)), m)
  {
    forall h | h in FormHandles(m, n)
      ensures !h.MbtH? && !h.WeeklyH? && !h.TailH? && h.m == m
    {
      var i :| 0 <= i < n && FormHandles(m, n)[i] == h;
    }
  }

  /** Each step of a month dispatches only that month's invocations, and waits only for
      that month's joined handles. */
  lemma MonthStepsOfMonth(steps: seq<Step>, o: int, m: nat, md: Date, states: seq<string>)
    requires Valid(md) && MonthAt(steps, o, m, md, states)
    ensures && StepOfMonth(steps[o], md, states) && StepOfMonth(steps[o + 1], md, states)
            && StepOfMonth(steps[o + 2], md, states) && StepOfMonth(steps[o + 3], md, states)
    ensures && JoinsOnlyMonthWork(steps[o], m) && JoinsOnlyMonthWork(steps[o + 1], m)
            && JoinsOnlyMonthWork(steps[o + 2], m) && JoinsOnlyMonthWork(steps[o + 3], m)
  {
    StageOneRoundOfMonth(steps, o, m, md, states);
    ChainRoundOfMonth(steps, o, m, md, states);
    AwcRoundOfMonth(steps, o, m, md, states);
    MbtRoundOfMonth(steps, o, m, md, states);
    MonthRounds(steps, o, m, md, states);
    FormHandlesOfMonth(m, |StageOne(md, states)|);
  }

  /** Step `j` of a month dispatches only that month's invocations, and waits only for that
      month's joined handles. */
  lemma MonthStepOfMonth(steps: seq<Step>, o: int, m: nat, md: Date, states: seq<string>, j: int)
    requires Valid(md) && MonthAt(steps, o, m, md, states) && 0 <= j < 4
    ensures StepOfMonth(steps[o + j], md, states) && JoinsOnlyMonthWork(steps[o + j], m)
  {
    MonthStepsOfMonth(steps, o, m, md, states);
    // One branch per round, so that the solver instantiates `steps[o + j]` with a concrete
    // offset and uses the matching conjunct of the lemma above.
    if j == 0 {
    } else if j == 1 {
    } else if j == 2 {
    } else {
    }
  }

  // ---------------------------------------------------------------------------------------
  // The month's joins hold back everything dispatched after it

  /** Everything the month at `o` dispatches in its first three rounds is finished before
      anything dispatched after its AWC round can start. */
  ghost predicate JoinedBeforeLater(steps: seq<Step>, o: int) {
    forall k1, ha, a, k2, hb, b ::
      o <= k1 <= o + 2 < k2 && DispatchesAt(steps, k1, ha, a) && DispatchesAt(steps, k2, hb, b)
      ==> RunsBefore(steps, a, b)
  }

  /** The step of the month at `o` that waits for a handle its first three rounds dispatch. */
  lemma JoiningStep(steps: seq<Step>, o: int, m: nat, md: Date, states: seq<string>,
                    k1: int, ha: Handle, a: Invocation) returns (k: int)
    requires Valid(md) && MonthAt(steps, o, m, md, states)
    requires o <= k1 <= o + 2 && DispatchesAt(steps, k1, ha, a)
    ensures k1 <= k <= o + 2 && AwaitsAt(steps, k, ha)
  {
    var ds := steps[k1].dispatches;
    var i :| 0 <= i < |ds| && ds[i].handle == ha && a in JobInvocations(ds[i].job);
    if k1 == o {
      k := FirstRoundJoin(steps, o, m, md, states, i, ha);
    } else if k1 == o + 1 {
      SecondRoundAt(steps, o, m, md, states);
      k := o + 1;
    } else {
      AwcRoundAt(steps, o, m, md, states);
      k := o + 2;
    }
  }

  /** The daily attendance, dispatched first in the first round, is awaited in the second;
      each stage-1 job in the first round itself. */
  lemma FirstRoundJoin(steps: seq<Step>, o: int, m: nat, md: Date, states: seq<string>,
                       i: int, ha: Handle) returns (k: int)
    requires Valid(md) && MonthAt(steps, o, m, md, states)
    requires 0 <= o < |steps| && steps[o].Round?
    requires 0 <= i < |steps[o].dispatches| && steps[o].dispatches[i].handle == ha
    ensures o <= k <= o + 1 && AwaitsAt(steps, k, ha)
  {
    FirstRoundAt(steps, o, m, md, states);
    if i == 0 {
      SecondRoundAt(steps, o, m, md, states);
      k := o + 1;
    } else {
      var stageOne := StageOne(md, states);
      assert steps[o].dispatches[i] == NumberedForms(m, stageOne)[i - 1];
      assert ha == FormHandles(m, |stageOne|)[i - 1];
      k := o;
    }
  }

  lemma JoinedBeforeLaterAt(steps: seq<Step>, o: int, m: nat, md: Date, states: seq<string>)
    requires Valid(md) && MonthAt(steps, o, m, md, states)
    ensures JoinedBeforeLater(steps, o)
  {
    forall k1, ha, a, k2, hb, b |
      o <= k1 <= o + 2 < k2 && DispatchesAt(steps, k1, ha, a) && DispatchesAt(steps, k2, hb, b)
      ensures RunsBefore(steps, a, b)
    {
      var k := JoiningStep(steps, o, m, md, states, k1, ha, a);
      JoinIntro(steps, k1, k, k2, ha, hb, a, b);
    }
  }

  /** The month's MBT jobs: one per state, for the text of the first of the month. */
  lemma MbtJobsAt(steps: seq<Step>, o: int, m: nat, md: Date, states: seq<string>)
    requires Valid(md) && MonthAt(steps, o, m, md, states)
    ensures forall i :: 0 <= i < |states| ==>
      DispatchesAt(steps, o + 3, MbtH(m, i), CreateMbt(states[i], FormatDate(FirstOfMonth(md))))
  {
    forall i | 0 <= i < |states|
      ensures DispatchesAt(steps, o + 3, MbtH(m, i), CreateMbt(states[i], FormatDate(FirstOfMonth(md))))
    {
      MbtDispatchAt(steps, o, m, md, states, i);
    }
  }
}
