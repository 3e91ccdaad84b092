/** Task signatures as data. A `.si(...)` or `.delay(...)` of the aggregation run becomes
    an `Invocation` value holding the arguments it was built with; a Celery `chain(...)`
    becomes a `Chain` job whose links run one after another. Nothing is executed. */
module Invocations {
  import opened Calendar

  /** The `state_id` argument of a state-scoped task: one state, or (for the child-health
      monthly table) the whole list of states. */
  datatype StateScope = OneState(stateId: string) | AllStates(stateIds: seq<string>)

  /** The `date` argument: the stage-1 form aggregations receive the `date` object, every
      other stage the `'%Y-%m-%d'` text. */
  datatype DateArg = DateValue(date: Date) | DateText(text: string)

  datatype Invocation =
      /** `icds_state_aggregation_task(state_id, date, func_name)` */
    | StateTask(scope: StateScope, date: DateArg, funcName: string)
      /** `icds_aggregation_task(date, func_name)` */
    | GlobalTask(date: DateArg, funcName: string)
      /** `create_mbt_for_month(state_id, month)` */
    | CreateMbt(stateId: string, month: string)
      /** `_bust_awc_cache()` */
    | BustAwcCache
      /** `email_dashboad_team(aggregation_date)` */
    | EmailDashboardTeam(aggregationDate: string)

  /** A unit handed to the queue: one task, or a chain whose link `i + 1` starts only
      after link `i` has completed. */
  datatype Job = Single(invocation: Invocation) | Chain(links: seq<Invocation>)

  /** The invocations a job consists of, in order. */
  function JobInvocations(j: Job): seq<Invocation> {
    match j
    case Single(inv) => [inv]
    case Chain(links) => links
  }
}
