/** The two closed, string-keyed stage registries of the aggregation tasks: the
    state-scoped one of `icds_state_aggregation_task` and the global one of
    `icds_aggregation_task`. A stage is named by its function name; looking a name up is
    the first thing either task does. */
module Registry {
  import opened Wrappers

  /** The values of the registry of `icds_state_aggregation_task`: stages run as
      `func(state_id, date)`. */
  datatype StateStage =
    | GmForms
    | DfForms
    | CfForms
    | CcsCfForms
    | ChildHealthThrForms
    | CcsRecordThrForms
    | ChildHealthPncForms
    | CcsRecordPncForms
    | DeliveryForms
    | BpForms
    | AwcInfraForms
    | ChildHealthMonthlyTable
    | LsAwcMgtForm
    | LsVhndForm
    | BeneficiaryForm

  /** The values of the registry of `icds_aggregation_task`: stages run as `func(date)`. */
  datatype GlobalStage =
    | AggLsTable
    | UpdateMonthsTable
    | DailyAttendanceTable
    | AggChildHealthTable
    | CcsRecordMonthlyTable
    | AggCcsRecordTable
    | AggAwcTable
    | AggAwcTableWeekly
    | AggregateAwcDaily

  /** The registry key of a state-scoped stage. */
  function StateStageName(s: StateStage): string {
    match s
    case GmForms => "_aggregate_gm_forms"
    case DfForms => "_aggregate_df_forms"
    case CfForms => "_aggregate_cf_forms"
    case CcsCfForms => "_aggregate_ccs_cf_forms"
    case ChildHealthThrForms => "_aggregate_child_health_thr_forms"
    case CcsRecordThrForms => "_aggregate_ccs_record_thr_forms"
    case ChildHealthPncForms => "_aggregate_child_health_pnc_forms"
    case CcsRecordPncForms => "_aggregate_ccs_record_pnc_forms"
    case DeliveryForms => "_aggregate_delivery_forms"
    case BpForms => "_aggregate_bp_forms"
    case AwcInfraForms => "_aggregate_awc_infra_forms"
    case ChildHealthMonthlyTable => "_child_health_monthly_table"
    case LsAwcMgtForm => "_agg_ls_awc_mgt_form"
    case LsVhndForm => "_agg_ls_vhnd_form"
    case BeneficiaryForm => "_agg_beneficiary_form"
  }

  /** The registry key of a global stage. */
  function GlobalStageName(g: GlobalStage): string {
    match g
    case AggLsTable => "_agg_ls_table"
    case UpdateMonthsTable => "_update_months_table"
    case DailyAttendanceTable => "_daily_attendance_table"
    case AggChildHealthTable => "_agg_child_health_table"
    case CcsRecordMonthlyTable => "_ccs_record_monthly_table"
    case AggCcsRecordTable => "_agg_ccs_record_table"
    case AggAwcTable => "_agg_awc_table"
    case AggAwcTableWeekly => "_agg_awc_table_weekly"
    case AggregateAwcDaily => "aggregate_awc_daily"
  }

  /** The dictionary lookup `{...}[func_name]` of `icds_state_aggregation_task`; `None`
      stands for the `KeyError` it raises on an unknown name. */
  function LookupStateStage(name: string): (r: Option<StateStage>)
    ensures r.Some? ==> StateStageName(r.value) == name
  {
    if name == "_aggregate_gm_forms" then Some(GmForms)
    else if name == "_aggregate_df_forms" then Some(DfForms)
    else if name == "_aggregate_cf_forms" then Some(CfForms)
    else if name == "_aggregate_ccs_cf_forms" then Some(CcsCfForms)
    else if name == "_aggregate_child_health_thr_forms" then Some(ChildHealthThrForms)
    else if name == "_aggregate_ccs_record_thr_forms" then Some(CcsRecordThrForms)
    else if name == "_aggregate_child_health_pnc_forms" then Some(ChildHealthPncForms)
    else if name == "_aggregate_ccs_record_pnc_forms" then Some(CcsRecordPncForms)
    else if name == "_aggregate_delivery_forms" then Some(DeliveryForms)
    else if name == "_aggregate_bp_forms" then Some(BpForms)
    else if name == "_aggregate_awc_infra_forms" then Some(AwcInfraForms)
    else if name == "_child_health_monthly_table" then Some(ChildHealthMonthlyTable)
    else if name == "_agg_ls_awc_mgt_form" then Some(LsAwcMgtForm)
    else if name == "_agg_ls_vhnd_form" then Some(LsVhndForm)
    else if name == "_agg_beneficiary_form" then Some(BeneficiaryForm)
    else None
  }

  /** The dictionary lookup `{...}[func_name]` of `icds_aggregation_task`. */
  function LookupGlobalStage(name: string): (r: Option<GlobalStage>)
    ensures r.Some? ==> GlobalStageName(r.value) == name
  {
    if name == "_agg_ls_table" then Some(AggLsTable)
    else if name == "_update_months_table" then Some(UpdateMonthsTable)
    else if name == "_daily_attendance_table" then Some(DailyAttendanceTable)
    else if name == "_agg_child_health_table" then Some(AggChildHealthTable)
    else if name == "_ccs_record_monthly_table" then Some(CcsRecordMonthlyTable)
    else if name == "_agg_ccs_record_table" then Some(AggCcsRecordTable)
    else if name == "_agg_awc_table" then Some(AggAwcTable)
    else if name == "_agg_awc_table_weekly" then Some(AggAwcTableWeekly)
    else if name == "aggregate_awc_daily" then Some(AggregateAwcDaily)
    else None
  }

  /** Every state-scoped stage is found under its own name, and only there. */
  lemma StateRegistryRoundTrip(s: StateStage, name: string)
    ensures LookupStateStage(StateStageName(s)) == Some(s)
    ensures LookupStateStage(name) == Some(s) <==> name == StateStageName(s)
  {
    StateNameFound(s);
  }

  /** The place of a state-scoped stage among the keys of its registry. */
  function StateStageIndex(s: StateStage): (i: nat)
    ensures i < 15
  {
    match s
    case GmForms => 0
    case DfForms => 1
    case CfForms => 2
    case CcsCfForms => 3
    case ChildHealthThrForms => 4
    case CcsRecordThrForms => 5
    case ChildHealthPncForms => 6
    case CcsRecordPncForms => 7
    case DeliveryForms => 8
    case BpForms => 9
    case AwcInfraForms => 10
    case ChildHealthMonthlyTable => 11
    case LsAwcMgtForm => 12
    case LsVhndForm => 13
    case BeneficiaryForm => 14
  }

  /** Looking a stage's name up finds that stage: no key before it in the registry is the
      same name. The keys are taken in four runs so that each proof stays small. */
  lemma StateNameFound(s: StateStage)
    ensures LookupStateStage(StateStageName(s)) == Some(s)
  {
    var i := StateStageIndex(s);
    if i < 7 {
      StateNameFoundBelow7(s);
    } else if i < 11 {
      StateNameFoundBelow11(s);
    } else if i < 13 {
      StateNameFoundBelow13(s);
    } else {
      StateNameFoundFrom13(s);
    }
  }

  lemma StateNameFoundBelow7(s: StateStage)
    requires StateStageIndex(s) < 7
    ensures LookupStateStage(StateStageName(s)) == Some(s)
  {
  }

  lemma StateNameFoundBelow11(s: StateStage)
    requires 7 <= StateStageIndex(s) < 11
    ensures LookupStateStage(StateStageName(s)) == Some(s)
  {
  }

  lemma StateNameFoundBelow13(s: StateStage)
    requires 11 <= StateStageIndex(s) < 13
    ensures LookupStateStage(StateStageName(s)) == Some(s)
  {
  }

  lemma StateNameFoundFrom13(s: StateStage)
    requires 13 <= StateStageIndex(s)
    ensures LookupStateStage(StateStageName(s)) == Some(s)
  {
  }

  /** Every global stage is found under its own name, and only there. */
  lemma GlobalRegistryRoundTrip(g: GlobalStage, name: string)
    ensures LookupGlobalStage(GlobalStageName(g)) == Some(g)
    ensures LookupGlobalStage(name) == Some(g) <==> name == GlobalStageName(g)
  {
    GlobalNameFound(g);
  }

  lemma GlobalNameFound(g: GlobalStage)
    ensures LookupGlobalStage(GlobalStageName(g)) == Some(g)
  {
  }

  /** Every key of the state-scoped registry ends in `s` or `m`, or in `e` with 27
      characters; every key of the global registry ends in `e` or `y` and is not 27
      characters long. */
  predicate StateKeyShape(name: string) {
    |name| > 0 && (name[|name| - 1] == 's' || name[|name| - 1] == 'm' || (name[|name| - 1] == 'e' && |name| == 27))
  }

  predicate GlobalKeyShape(name: string) {
    |name| > 0 && (name[|name| - 1] == 'e' || name[|name| - 1] == 'y') && |name| != 27
  }

  lemma StateKeysShaped(name: string)
    requires LookupStateStage(name).Some?
    ensures StateKeyShape(name)
  {
  }

  lemma GlobalKeysShaped(name: string)
    requires LookupGlobalStage(name).Some?
    ensures GlobalKeyShape(name)
  {
  }

  /** No name is a key of both registries. */
  lemma RegistriesDisjoint(name: string)
    ensures !(LookupStateStage(name).Some? && LookupGlobalStage(name).Some?)
  {
    if LookupStateStage(name).Some? && LookupGlobalStage(name).Some? {
      StateKeysShaped(name);
      GlobalKeysShaped(name);
    }
  }

  /** The eleven state-scoped form aggregations of stage 1, in the order they are fanned out. */
  const StageOneForms: seq<StateStage> := [
    GmForms, DfForms, CfForms, CcsCfForms, ChildHealthThrForms, CcsRecordThrForms,
    ChildHealthPncForms, CcsRecordPncForms, DeliveryForms, BpForms, AwcInfraForms
  ]

  /** The per-state Lady-Supervisor forms of the AWC chain, in chain order. */
  const LsForms: seq<StateStage> := [LsAwcMgtForm, LsVhndForm, BeneficiaryForm]
}
