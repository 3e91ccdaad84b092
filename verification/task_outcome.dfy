/** What one run of `icds_aggregation_task` or `icds_state_aggregation_task` does: resolve
    the stage by name (an unknown name raises before anything else), return early when
    there is no dashboard database alias, otherwise call the stage; a data-layer `Error`
    from the stage is reported twice and turned into a retry with the same arguments, any
    other exception escapes. */
module TaskOutcome {
  import opened Wrappers
  import opened Registry
  import opened Invocations

  /** How the stage function behaves when called: the opaque aggregation it wraps. */
  datatype StageBehaviour =
    | Completes
      /** raises a `django.db.Error` (or a subclass such as `IntegrityError`) */
    | RaisesDataError(error: string)
      /** raises any other exception */
    | RaisesOther(error: string)

  /** The two reports sent before a retry: `notify_exception` with the failure details and
      the dashboard team's soft assert announcing the retry. */
  datatype Alert =
    | ExceptionNotice(funcName: string, date: DateArg, scope: Option<StateScope>, error: string)
    | RetryAnnouncement(funcName: string, date: DateArg, scope: Option<StateScope>)

  datatype Outcome =
      /** `KeyError` from the registry lookup; not retried */
    | UnknownStage(funcName: string)
      /** no database alias: the task returns without calling the stage */
    | Skipped
    | Succeeded
      /** `self.retry(exc=exc)`: the task is queued again with `rerun`'s arguments */
    | Retried(rerun: Invocation, error: string)
      /** the stage's exception propagates out of the task */
    | Raised(error: string)

  /** One run of a task: its outcome, whether the stage was called, the alerts sent. */
  datatype TaskRun = TaskRun(outcome: Outcome, stageCalled: bool, alerts: seq<Alert>)

  /** The part of both tasks after a successful lookup. */
  function GuardedStage(funcName: string, date: DateArg, scope: Option<StateScope>,
                        rerun: Invocation, hasDbAlias: bool, behaviour: StageBehaviour): TaskRun
  {
    if !hasDbAlias then TaskRun(Skipped, false, [])
    else match behaviour
      case Completes => TaskRun(Succeeded, true, [])
      case RaisesDataError(e) =>
        TaskRun(Retried(rerun, e), true,
                [ExceptionNotice(funcName, date, scope, e), RetryAnnouncement(funcName, date, scope)])
      case RaisesOther(e) => TaskRun(Raised(e), true, [])
  }

  /** `icds_state_aggregation_task(state_id, date, func_name)`. */
  function RunStateTask(scope: StateScope, date: DateArg, funcName: string,
                        hasDbAlias: bool, behaviour: StageBehaviour): (r: TaskRun)
    ensures r.outcome.UnknownStage? <==> LookupStateStage(funcName).None?
    ensures r.outcome.UnknownStage? ==> r.outcome.funcName == funcName && r.alerts == []
    ensures r.stageCalled <==> LookupStateStage(funcName).Some? && hasDbAlias
    ensures r.outcome.Skipped? <==> LookupStateStage(funcName).Some? && !hasDbAlias
    ensures r.outcome.Succeeded? <==> r.stageCalled && behaviour.Completes?
    ensures r.outcome.Raised? <==> r.stageCalled && behaviour.RaisesOther?
    ensures r.outcome.Retried? <==> r.stageCalled && behaviour.RaisesDataError?
    ensures r.outcome.Retried? ==>
      && r.outcome.rerun == StateTask(scope, date, funcName)
      && r.outcome.error == behaviour.error
      && |r.alerts| == 2
      && r.alerts[0] == ExceptionNotice(funcName, date, Some(scope), behaviour.error)
      && r.alerts[1].RetryAnnouncement?
    ensures !r.outcome.Retried? ==> r.alerts == []
  {
    match LookupStateStage(funcName)
    case None => TaskRun(UnknownStage(funcName), false, [])
    case Some(_) =>
      GuardedStage(funcName, date, Some(scope), StateTask(scope, date, funcName), hasDbAlias, behaviour)
  }

  /** `icds_aggregation_task(date, func_name)`. */
  function RunGlobalTask(date: DateArg, funcName: string,
                         hasDbAlias: bool, behaviour: StageBehaviour): (r: TaskRun)
    ensures r.outcome.UnknownStage? <==> LookupGlobalStage(funcName).None?
    ensures r.outcome.UnknownStage? ==> r.outcome.funcName == funcName && r.alerts == []
    ensures r.stageCalled <==> LookupGlobalStage(funcName).Some? && hasDbAlias
    ensures r.outcome.Skipped? <==> LookupGlobalStage(funcName).Some? && !hasDbAlias
    ensures r.outcome.Succeeded? <==> r.stageCalled && behaviour.Completes?
    ensures r.outcome.Raised? <==> r.stageCalled && behaviour.RaisesOther?
    ensures r.outcome.Retried? <==> r.stageCalled && behaviour.RaisesDataError?
    ensures r.outcome.Retried? ==>
      && r.outcome.rerun == GlobalTask(date, funcName)
      && r.outcome.error == behaviour.error
      && |r.alerts| == 2
      && r.alerts[0] == ExceptionNotice(funcName, date, None, behaviour.error)
      && r.alerts[1].RetryAnnouncement?
    ensures !r.outcome.Retried? ==> r.alerts == []
  {
    match LookupGlobalStage(funcName)
    case None => TaskRun(UnknownStage(funcName), false, [])
    case Some(_) =>
      GuardedStage(funcName, date, None, GlobalTask(date, funcName), hasDbAlias, behaviour)
  }

  /** Whether an invocation goes to one of the two registry-backed tasks. */
  predicate IsStageTask(inv: Invocation) {
    inv.StateTask? || inv.GlobalTask?
  }

  /** The worker's handling of a queued stage invocation. */
  function RunInvocation(inv: Invocation, hasDbAlias: bool, behaviour: StageBehaviour): TaskRun
    requires IsStageTask(inv)
  {
    match inv
    case StateTask(scope, date, funcName) => RunStateTask(scope, date, funcName, hasDbAlias, behaviour)
    case GlobalTask(date, funcName) => RunGlobalTask(date, funcName, hasDbAlias, behaviour)
  }

  /** Whether the invocation's name is a key of the registry of the task it goes to. */
  predicate WellKeyed(inv: Invocation) {
    match inv
    case StateTask(_, _, funcName) => LookupStateStage(funcName).Some?
    case GlobalTask(_, funcName) => LookupGlobalStage(funcName).Some?
    case _ => true
  }

  /** A retry re-runs the same stage with the same arguments: after a data-layer error, a
      rerun whose stage now completes succeeds, and the two alerts of the first attempt are
      the only ones sent. */
  lemma RetryThenSuccess(inv: Invocation, error: string)
    requires IsStageTask(inv)
    requires WellKeyed(inv)
    ensures var first := RunInvocation(inv, true, RaisesDataError(error));
      && first.outcome == Retried(inv, error)
      && IsStageTask(first.outcome.rerun)
      && RunInvocation(first.outcome.rerun, true, Completes) == TaskRun(Succeeded, true, [])
      && |first.alerts + RunInvocation(first.outcome.rerun, true, Completes).alerts| == 2
  {
  }

  /** A well-keyed invocation never fails the lookup, whatever the alias or the stage does. */
  lemma WellKeyedNeverUnknown(inv: Invocation, hasDbAlias: bool, behaviour: StageBehaviour)
    requires IsStageTask(inv)
    ensures WellKeyed(inv) <==> !RunInvocation(inv, hasDbAlias, behaviour).outcome.UnknownStage?
  {
  }
}
