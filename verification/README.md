# ICDS dashboard aggregation: orchestration model

A Dafny model of the nightly aggregation run of the ICDS dashboard
(`custom/icds_reports/tasks.py`). The run, `move_ucr_data_into_aggregation_tables`:

1. refreshes the table-name mapping;
2. computes a sliding window of calculation dates: the last day of each of the
   `intervals - 1` months before the run date, then the run date itself;
3. hands each month's work to the Celery queue in four rounds:
   - the stage-1 form aggregations, fanned out per state, and the months table;
   - the child-health and CCS-record chains;
   - the AWC chain with the Lady-Supervisor fan-outs;
   - the MBT jobs;
4. blocks on the results between rounds;
5. ends with the weekly AWC aggregation on Saturdays and the daily AWC / cache-bust / e-mail chain.

Each queued stage names its function by a string key. The worker looks that key up in one
of two closed registries, returns early without a database alias, and turns a data-layer
error into two reports and a retry.

Also modelled are the helper that upserts `UCR_TABLE_NAME_MAPPING` and the report of
dashboard accounts that did not log in during a window.

Nothing is executed. The run is modelled as a value: a sequence of `Step`s, each either
a synchronous call of the orchestrator or a `Round` that dispatches jobs under named
handles and then awaits some handles.

The ordering guarantees are stated through `RunsBefore(steps, a, b)`: a dispatch of `b`
cannot start before a dispatch of `a` has finished. That holds when:
- `a` precedes `b` in one Celery chain; or
- a handle holding `a` is awaited at or after its dispatch step and before a step that
  dispatches `b`.

On its own, `RunsBefore` speaks of one dispatch of each side. `DispatchSites` closes that
gap for a run:
- every handle of the run's schedule is dispatched once, so each `.get()` waits for one job;
- when the state ids are distinct, every invocation is dispatched once, as one link of one job.

So every `RunsBefore` fact of such a run holds for every dispatch of `b` (`StartsAfter`,
collected in `OrderIsStrict`). The state ids are the `location_id` values of the state
locations (lines 204-206), one per location. With a repeated id the run does dispatch the
same invocation twice (`RepeatedStateDispatchedTwice`).

Modules, in dependency order:

| file | module | what it holds |
|---|---|---|
| `wrappers.dfy` | `Wrappers` | `Option` and `Result` |
| `calendar.dfy` | `Calendar` | Python `date`, `relativedelta(months=k)`, the day step, `weekday()` |
| `iso_format.dfy` | `IsoFormat` | `strftime('%Y-%m-%d')` / `'%Y-%m-01'` and the reader that inverts them |
| `month_window.dfy` | `MonthWindow` | `monthly_dates` (lines 189-195) |
| `registry.dfy` | `Registry` | the two `func_name` dictionaries |
| `invocations.dfy` | `Invocations` | task signatures as data |
| `task_outcome.dfy` | `TaskOutcome` | one run of `icds_aggregation_task` / `icds_state_aggregation_task` |
| `plan.dfy` | `AggregationPlan` | the schedule of a run (lines 187-310) |
| `plan_properties.dfy` | `PlanProperties` | stage-1 coverage and the order inside a month |
| `plan_contents.dfy` | `PlanContents` | what each month may dispatch and await |
| `run_properties.dfy` | `RunProperties` | the layout of a run and what it may dispatch |
| `dispatch_sites.dfy` | `DispatchSites` | where each handle and each invocation of a run is dispatched |
| `run_order.dfy` | `RunOrder` | the order a whole run imposes |
| `table_mapping.dfy` | `TableMapping` | `_update_ucr_table_mapping` |
| `dashboard_users.dfy` | `DashboardUsers` | `get_dashboard_users_not_logged_in` |

The external inputs become parameters:

| in the code | in the model |
|---|---|
| the database alias from `get_icds_ucr_db_alias()` | `hasDbAlias` |
| the state location ids queried from `SQLLocation` | `states` |
| `get_table_name` | the function-valued `TableNamer` |
| the domain's user pairs | `users` |
| the audit rows | `audit`, with times as integers on one scale |
| the stage a task calls | a `StageBehaviour`: it completes, raises a data-layer error, or raises something else |

Points of the code that the model follows:
- **Alerts before a retry.** A data-layer error sends two reports before `self.retry`: `notify_exception` and the team's soft assert (lines 375-386 and 422-433). `TaskOutcome` records both.
- **Retry delay.** `self.retry(exc=exc)` uses the task's 15-minute `default_retry_delay` (lines 351 and 391) and Celery's own retry budget.
- **Failed stage-1 member.** `.get()` re-raises the first failed stage-1 result into the orchestrator (line 264). The model does not follow a failure past `.get()`; see "Left out".
- **Location-aggregation error.** `_update_aggregate_locations_tables` raises before any month is dispatched (line 202). The model does not include that failure; see "Left out".

## Model

| member | source | states |
|---|---|---|
| Calendar.FirstOfMonth | custom/icds_reports/tasks.py:189 | `date.replace(day=1)` is a valid date of the same month, on day 1, not after the date |
| Calendar.SubtractMonths | custom/icds_reports/tasks.py:192 | `d - relativedelta(months=k)` succeeds exactly when the target month lies in years 1..9999. On success it is that month, with the day clamped to the month's length. Otherwise it is the `ValueError` case |
| Calendar.DayBeforeInvertsNextDay | custom/icds_reports/tasks.py:193 | stepping one day back and one day forward are inverse on valid dates; each fails only at its end of the calendar |
| Calendar.DayBeforeFirstIsMonthEnd | custom/icds_reports/tasks.py:193 | the first of a month minus one day is the last day of the previous month; only 0001-01-01 overflows |
| Calendar.NextDayAdvancesWeekday | custom/icds_reports/tasks.py:304 | consecutive days have consecutive `weekday()` values modulo 7, so the Saturday test moves with the date |
| IsoFormat.ParseFormattedDate | custom/icds_reports/tasks.py:209 | reading back `strftime('%Y-%m-%d')` text gives the date it was made from |
| IsoFormat.FormatParsedDate | custom/icds_reports/tasks.py:209 | any text that reads as a date is exactly that date's `'%Y-%m-%d'` text |
| IsoFormat.FormatDateInjective | custom/icds_reports/tasks.py:209 | two dates share a calculation-date text exactly when they are equal |
| IsoFormat.FormatMonthStart | custom/icds_reports/tasks.py:301 | `strftime('%Y-%m-01')` is the `'%Y-%m-%d'` text of the first of the date's month |
| MonthWindow.MonthEndBack | custom/icds_reports/tasks.py:192-193 | one loop pass is the last day of the month `k` months back. It fails exactly when that month is before year 1: `ValueError` when the month shift itself leaves the years, `OverflowError` when only the day step does |
| MonthWindow.MonthEnds | custom/icds_reports/tasks.py:190-193 | the loop succeeds exactly when its oldest month is in year 1 or later. It has one valid date per pass, and otherwise fails with the oldest pass's error |
| MonthWindow.MonthEndsEntries | custom/icds_reports/tasks.py:190-193 | entry `i` of the loop is the last day of the month `n - i` months before the run month |
| MonthWindow.WindowFailsExactly | custom/icds_reports/tasks.py:189-195 | computing `monthly_dates` raises exactly when `intervals >= 2` and the window reaches back before January of year 1 |
| MonthWindow.WindowShape | custom/icds_reports/tasks.py:189-195 | a window has `max(intervals, 1)` dates and ends with the run date; each earlier date is the last day of the month as many months back as it is places from the end |
| MonthWindow.WindowAscending | custom/icds_reports/tasks.py:189-195 | every window date is valid, lies in the expected month, and the window is strictly ascending |
| MonthWindow.LeapYearExample | custom/icds_reports/tasks.py:189-195 | a run on 2020-03-15 with three intervals computes 2020-01-31, 2020-02-29, 2020-03-15 |
| Registry.LookupStateStage | custom/icds_reports/tasks.py:393-409 | a name found in the state-scoped registry is the key of the stage found |
| Registry.LookupGlobalStage | custom/icds_reports/tasks.py:353-363 | a name found in the global registry is the key of the stage found |
| Registry.StateRegistryRoundTrip | custom/icds_reports/tasks.py:393-409 | each of the fifteen state-scoped stages is found under its own key and under no other name |
| Registry.GlobalRegistryRoundTrip | custom/icds_reports/tasks.py:353-363 | each of the nine global stages is found under its own key and under no other name |
| Registry.RegistriesDisjoint | custom/icds_reports/tasks.py:353-409 | no name is a key of both registries |
| TaskOutcome.RunStateTask | custom/icds_reports/tasks.py:391-435 | the lookup comes first: an unknown name is a `KeyError` with no stage call and no report. Without an alias the task skips the stage; otherwise the stage's behaviour decides success, a propagated exception, or a retry of the same invocation with both reports |
| TaskOutcome.RunGlobalTask | custom/icds_reports/tasks.py:351-388 | the same outcomes for `icds_aggregation_task`, against the global registry and without a state scope |
| TaskOutcome.RetryThenSuccess | custom/icds_reports/tasks.py:373-386 | a data-layer error retries the very same invocation; if the retry's stage completes, it succeeds, and only the first attempt's two reports are sent |
| TaskOutcome.WellKeyedNeverUnknown | custom/icds_reports/tasks.py:391-416 | a queued stage invocation escapes the unknown-name failure exactly when its name is a key of its task's registry, whatever the alias or the stage does |
| AggregationPlan.PerState | custom/icds_reports/tasks.py:210-213 | a form's fan-out has one invocation per state, in state order, each with the month's date object |
| AggregationPlan.FanOut | custom/icds_reports/tasks.py:210-257 | the fan-outs of a list of forms hold `forms * states` invocations, each one form for one state |
| PlanProperties.FormInvInjective | custom/icds_reports/tasks.py:210-257 | two stage-1 invocations of a month are equal exactly when form and state are equal |
| PlanProperties.FanOutCount | custom/icds_reports/tasks.py:210-257 | with distinct forms, a fan-out holds each (form, state) invocation as often as the state is listed, and no invocation of an unlisted form |
| PlanProperties.StageOneCoverage | custom/icds_reports/tasks.py:210-258 | `stage_1_tasks` holds `11 * states + 1` invocations. Each of the eleven forms occurs once per listed state, `_update_months_table` once, and nothing else |
| PlanProperties.StageOneFormsBeforeChains | custom/icds_reports/tasks.py:262-275 | every stage-1 form aggregation and `_update_months_table` finish before the child-health and CCS-record monthly tables start |
| PlanProperties.SecondRoundJoins | custom/icds_reports/tasks.py:259-278 | the daily attendance is dispatched with stage 1 and awaited with the two chains; both chains are dispatched and awaited in the same round |
| PlanProperties.ChainsInSecondRound | custom/icds_reports/tasks.py:266-275 | each monthly chain runs its monthly table before its aggregate table |
| PlanProperties.AwcChainAfterJoins | custom/icds_reports/tasks.py:266-299 | `_agg_awc_table` starts only after the daily attendance and both aggregate tables have finished |
| PlanProperties.AwcChainBrackets | custom/icds_reports/tasks.py:280-297 | in the AWC chain, `_agg_awc_table` precedes and `_agg_ls_table` follows every Lady-Supervisor form aggregation of every state |
| PlanProperties.AwcChainFormsInOrder | custom/icds_reports/tasks.py:280-297 | all AWC-management forms precede all VHND forms, which precede all beneficiary forms |
| PlanProperties.AwcChainStatesInOrder | custom/icds_reports/tasks.py:280-297 | each Lady-Supervisor form visits the states in list order |
| PlanProperties.MbtAfterAwcChain | custom/icds_reports/tasks.py:299-303 | every MBT job of the month starts after `_agg_ls_table` has finished |
| PlanProperties.MonthOrderedAt | custom/icds_reports/tasks.py:208-303 | a month placed anywhere in a schedule imposes all of the month's orderings above |
| PlanContents.AwcChainMember | custom/icds_reports/tasks.py:280-297 | the AWC chain consists of its two ends and one invocation per Lady-Supervisor form and state |
| PlanContents.OfMonthWellKeyed | custom/icds_reports/tasks.py:208-303 | every invocation a month may dispatch names a key of the registry of the task it goes to |
| PlanContents.WeeklyNotOfMonth | custom/icds_reports/tasks.py:304-305 | no month dispatches the weekly AWC aggregation |
| PlanContents.MonthStepsOfMonth | custom/icds_reports/tasks.py:208-303 | a month dispatches only its own work; it awaits only its own stage-1, attendance, chain and AWC handles, never an MBT handle |
| PlanContents.JoinedBeforeLaterAt | custom/icds_reports/tasks.py:262-299 | everything the month dispatches before its MBT round finishes before anything dispatched after its AWC round |
| PlanContents.MbtJobsAt | custom/icds_reports/tasks.py:301-303 | the last round of a month dispatches one `create_mbt_for_month` per state with the first-of-month text |
| RunProperties.RunLaidOut | custom/icds_reports/tasks.py:187-310 | with an alias and a window, a run's schedule is: the mapping refresh, the function creation, the location aggregation, four steps per window month in window order, then the tail |
| RunProperties.ShortRuns | custom/icds_reports/tasks.py:187-198 | without an alias only the mapping refresh happens. A window reaching before year 1 raises right after that refresh, and only then |
| DispatchSites.OnceStartsAfter | custom/icds_reports/tasks.py:259-299 | when `b` is dispatched once, a `RunsBefore` fact about `b` holds for every dispatch of `b` |
| DispatchSites.FanOutAt | custom/icds_reports/tasks.py:210-257 | in the stage-1 fan-out, form `q` for the state at place `r` is entry `q * states + r` |
| DispatchSites.LaidOutHandlesUnique | custom/icds_reports/tasks.py:208-310 | no two dispatches of a laid-out schedule share a handle |
| DispatchSites.OccursAtSite | custom/icds_reports/tasks.py:208-310 | over distinct state ids, the handle and chain place of any dispatched invocation are determined by the invocation's stage, date argument and state |
| DispatchSites.LaidOutDispatchedOnce | custom/icds_reports/tasks.py:208-310 | over distinct state ids, a laid-out schedule dispatches each invocation at most once |
| DispatchSites.RunHandlesUnique | custom/icds_reports/tasks.py:187-310 | each handle of a run is dispatched once, so each `.get()` waits for one job |
| DispatchSites.RunDispatchesOnce | custom/icds_reports/tasks.py:187-310 | over distinct state ids, a run dispatches each invocation at most once, as one link of one job |
| DispatchSites.RepeatedStateDispatchedTwice | custom/icds_reports/tasks.py:204-213 | with a state id listed twice, the first month's `_aggregate_gm_forms` for it is dispatched twice |
| DispatchSites.RunOrderIsStrict | custom/icds_reports/tasks.py:187-310 | over distinct state ids, every `RunsBefore` fact of a run holds for every dispatch of its later invocation |
| RunOrder.RunOrdersEachMonth | custom/icds_reports/tasks.py:208-303 | every month of the window imposes its whole order within the run; over distinct state ids, each ordering holds for every dispatch |
| RunOrder.RunMonthsJoinedInOrder | custom/icds_reports/tasks.py:208-299 | each month's joined work finishes before anything dispatched after its AWC round; over distinct state ids, before every such dispatch |
| RunOrder.MonthsInWindowOrder | custom/icds_reports/tasks.py:208-310 | each month's `_agg_ls_table` finishes before every later month's daily attendance and before the tail's daily AWC aggregation; over distinct state ids, before every dispatch of them |
| RunOrder.TailDispatches | custom/icds_reports/tasks.py:306-310 | the last step dispatches the tail chain with the run date's text under a handle used nowhere else: daily AWC aggregation, cache bust, e-mail, in that order; over distinct state ids, for every dispatch of the later link |
| RunProperties.RunDispatchesOnly | custom/icds_reports/tasks.py:204-310 | a run dispatches nothing but the work of its window months and its tail |
| RunProperties.RunWellKeyed | custom/icds_reports/tasks.py:204-310 | every stage name a run dispatches is a key of its task's registry, so no dispatched stage ends in `KeyError` |
| RunProperties.WeeklyOnlyOnSaturday | custom/icds_reports/tasks.py:304-305 | the weekly AWC aggregation is dispatched exactly when the run date is a Saturday |
| RunProperties.FireAndForget | custom/icds_reports/tasks.py:301-310 | the orchestrator never awaits an MBT job, the weekly aggregation or the tail chain |
| RunProperties.RunMbtJobs | custom/icds_reports/tasks.py:299-303 | each month awaits its AWC chain, then dispatches one MBT job per state for the first of that month |
| TableMapping.Refresh | custom/icds_reports/tasks.py:945-956 | after the refresh the mapping's types are those it had plus every listed type |
| TableMapping.RefreshLeavesOthers | custom/icds_reports/tasks.py:952-955 | a type no row lists keeps its table name |
| TableMapping.RefreshLastWins | custom/icds_reports/tasks.py:947-955 | a listed type holds the name computed from the last row of that type: the report table for a report-builder row, the name itself otherwise |
| TableMapping.RefreshForgetsListed | custom/icds_reports/tasks.py:952-955 | what a listed type ends up with does not depend on the mapping before the refresh |
| TableMapping.RefreshIdempotent | custom/icds_reports/tasks.py:945-956 | refreshing twice gives the same mapping as refreshing once |
| TableMapping.MappingTypesDistinct | custom/icds_reports/tasks.py:145-164 | the eighteen rows have eighteen different types; exactly the complementary-feeding and take-home-ration rows are not report-builder rows |
| TableMapping.UpdateUcrTableMapping | custom/icds_reports/tasks.py:945-956 | after `_update_ucr_table_mapping` the mapping keeps its old types and holds all eighteen. Each maps to `get_table_name(domain, name)`, or to the name for the two plain rows. Every other type is untouched |
| DashboardUsers.MatcherIsPattern | custom/icds_reports/tasks.py:1068 | the matcher accepts exactly usernames that start with digits, a dot, ASCII letters and an at sign, with anything after |
| DashboardUsers.PatternExamples | custom/icds_reports/tasks.py:1068 | the pattern accepts `123.ab@x` and `.@`; it rejects a missing dot, a digit among the letters and a leading letter |
| DashboardUsers.DashboardUsersNotLoggedIn | custom/icds_reports/tasks.py:1063-1086 | the result is exactly the listed usernames of the dashboard pattern with no audit entry in `[start, end)` |

## Left out

- The serialisation guard `serial_task` (lock, 36-hour timeout), the periodic trigger (lines 173-176) and the default `date` from the clock: the run date is a parameter.
- Celery itself: the model states which invocations are dispatched and awaited, and in what order they can run. It does not model workers, concurrency, or the failure of an awaited job propagating through `.get()`.
- TaskOutcome.RunStateTask: a data-layer error is always a retry; Celery's retry budget and the final failure after it, and the 15-minute delay, are not modelled.
- TaskOutcome.RunGlobalTask: the same retry budget is left out.
- The Python 2 `bytes` decoding of the date (lines 365-366 and 411-412): Python 3 never takes it.
- The SQL and ORM bodies of the stages, `_bust_awc_cache`, `email_dashboad_team` and `create_mbt_for_month`.
- The failure of the two synchronous calls. `_create_aggregate_functions` (lines 314-328) and `_update_aggregate_locations_tables` (lines 331-348) each send a soft assert and re-raise when they fail. That ends the run after the mapping refresh and before any month is dispatched. The model assumes both calls complete.
- The other tasks of the file (exports, data validation, missing-document pushes, stagnant cases, and so on) and the other files of the repository, which are not part of this model.
- IsoFormat.FormatDate: `%Y` is always four zero-padded digits; for years below 1000 the C library's `strftime` may print fewer digits.
- DashboardUsers.DashboardUsersNotLoggedIn: `\d` is read as the ASCII digits. A Python 3 string pattern also accepts other Unicode decimal digits.
- DashboardUsers.DashboardUsersNotLoggedIn: the user pairs and the audit rows come in as parameters. Audit times are integers, and the window is `start <= time < end` as the query filters it.
- `get_table_name` is a parameter of the mapping refresh, because the code that computes report table names is not part of this model.
- PlanProperties.StageOneFormsBeforeChains: over an arbitrary schedule the orders are `RunsBefore` facts about one dispatch of each side. That they hold for every dispatch is proved for a run over distinct state ids (`RunOrder.RunOrdersEachMonth`).
- PlanProperties.ChainsInSecondRound: the same; the strict reading is `RunOrder.RunOrdersEachMonth`'s.
- PlanProperties.AwcChainAfterJoins: the same; the strict reading is `RunOrder.RunOrdersEachMonth`'s.
- PlanProperties.AwcChainBrackets: the same; the strict reading is `RunOrder.RunOrdersEachMonth`'s.
- PlanProperties.AwcChainFormsInOrder: the same; the strict reading is `RunOrder.RunOrdersEachMonth`'s.
- PlanProperties.AwcChainStatesInOrder: the same; the strict reading is `RunOrder.RunOrdersEachMonth`'s.
- PlanProperties.MbtAfterAwcChain: the same; the strict reading is `RunOrder.RunOrdersEachMonth`'s.
- PlanProperties.MonthOrderedAt: the same; the strict reading is `RunOrder.RunOrdersEachMonth`'s.
- PlanContents.JoinedBeforeLaterAt: the same; the strict reading is `RunOrder.RunMonthsJoinedInOrder`'s.
- RunOrder.RunOrdersEachMonth: the strict reading is proved only for distinct state ids; with a repeated id some invocations are dispatched twice.
- RunOrder.RunMonthsJoinedInOrder: the strict reading is proved only for distinct state ids.
- RunOrder.MonthsInWindowOrder: the strict reading is proved only for distinct state ids.
- RunOrder.TailDispatches: the strict reading of the tail chain's order is proved only for distinct state ids, although the tail's invocations do not depend on the states.
