/** The refresh of the table-name mapping the dashboard reads to find its source tables. Each
    row of `UCR_TABLE_NAME_MAPPING` is upserted by its table type: a report-builder row maps
    to the physical name of the report table, any other row to its name as written. The
    mapping table is a map from table type to table name. */
module TableMapping {

  datatype MappingEntry = MappingEntry(tableType: string, name: string, isUcr: bool)

  /** `UCR_TABLE_NAME_MAPPING`, in source order; a row without `is_ucr` is a report-builder
      row. */
  const UcrTableNameMapping: seq<MappingEntry> := [
    MappingEntry("awc_location", "static-awc_location", true),
    MappingEntry("daily_feeding", "static-daily_feeding_forms", true),
    MappingEntry("household", "static-household_cases", true),
    MappingEntry("infrastructure", "static-infrastructure_form", true),
    MappingEntry("person", "static-person_cases_v3", true),
    MappingEntry("usage", "static-usage_forms", true),
    MappingEntry("vhnd", "static-vhnd_form", true),
    MappingEntry("complementary_feeding", "icds_dashboard_comp_feed_form", false),
    MappingEntry("aww_user", "static-commcare_user_cases", true),
    MappingEntry("child_tasks", "static-child_tasks_cases", true),
    MappingEntry("pregnant_tasks", "static-pregnant-tasks_cases", true),
    MappingEntry("thr_form", "icds_dashboard_child_health_thr_forms", false),
    MappingEntry("child_list", "static-child_health_cases", true),
    MappingEntry("ccs_record_list", "static-ccs_record_cases", true),
    MappingEntry("ls_vhnd", "static-ls_vhnd_form", true),
    MappingEntry("ls_home_visits", "static-ls_home_visit_forms_filled", true),
    MappingEntry("ls_awc_mgt", "static-awc_mgt_forms", true),
    MappingEntry("cbe_form", "static-cbe_form", true)
  ]

  /** `get_table_name(domain, name)`: the physical table of a report, computed by code this
      model does not contain, so it is a parameter of every operation that needs it. */
  type TableNamer = (string, string) -> string

  /** The table name a row is stored with. */
  function TableNameOf(e: MappingEntry, tableName: TableNamer, domain: string): string {
    if e.isUcr then tableName(domain, e.name) else e.name
  }

  function Types(entries: seq<MappingEntry>): set<string> {
    set i | 0 <= i < |entries| :: entries[i].tableType
  }

  /** `_update_ucr_table_mapping`: one `update_or_create` keyed by table type per row, in
      order. */
  function Refresh(db: map<string, string>, entries: seq<MappingEntry>, tableName: TableNamer,
                   domain: string): (r: map<string, string>)
    ensures r.Keys == db.Keys + Types(entries)
    decreases |entries|
  {
    if entries == [] then db
    else
      var e := entries[0];
      var r := Refresh(db[e.tableType := TableNameOf(e, tableName, domain)], entries[1..], tableName, domain);
      assert Types(entries) == {e.tableType} + Types(entries[1..]) by {
        forall t | t in Types(entries)
          ensures t in {e.tableType} + Types(entries[1..])
        {
          var i :| 0 <= i < |entries| && entries[i].tableType == t;
          if i > 0 {
            assert entries[1..][i - 1] == entries[i];
          }
        }
        forall t | t in Types(entries[1..])
          ensures t in Types(entries)
        {
          var i :| 0 <= i < |entries[1..]| && entries[1..][i].tableType == t;
          assert entries[i + 1].tableType == t;
        }
      }
      r
  }

  lemma TypesTail(entries: seq<MappingEntry>, t: string)
    requires entries != []
    ensures t in Types(entries) <==> t == entries[0].tableType || t in Types(entries[1..])
  {
    if t in Types(entries) {
      var i :| 0 <= i < |entries| && entries[i].tableType == t;
      if i > 0 {
        assert entries[1..][i - 1] == entries[i];
      }
    }
    if t in Types(entries[1..]) {
      var i :| 0 <= i < |entries[1..]| && entries[1..][i].tableType == t;
      assert entries[i + 1].tableType == t;
    }
  }

  /** Rows for table types the refresh does not list are left as they were. */
  lemma {:induction false} RefreshLeavesOthers(db: map<string, string>, entries: seq<MappingEntry>,
                                               tableName: TableNamer, domain: string, t: string)
    requires t in db && t !in Types(entries)
    ensures Refresh(db, entries, tableName, domain)[t] == db[t]
    decreases |entries|
  {
    if entries != [] {
      var e := entries[0];
      TypesTail(entries, t);
      RefreshLeavesOthers(db[e.tableType := TableNameOf(e, tableName, domain)], entries[1..],
                          tableName, domain, t);
    }
  }

  /** The row for a listed type holds the name of the last row with that type. */
  lemma {:induction false} RefreshLastWins(db: map<string, string>, entries: seq<MappingEntry>,
                                           tableName: TableNamer, domain: string, i: int)
    requires 0 <= i < |entries|
    requires forall j :: i < j < |entries| ==> entries[j].tableType != entries[i].tableType
    ensures Refresh(db, entries, tableName, domain)[entries[i].tableType]
      == TableNameOf(entries[i], tableName, domain)
    decreases |entries|
  {
    var e := entries[0];
    var db' := db[e.tableType := TableNameOf(e, tableName, domain)];
    if i == 0 {
      RefreshLeavesOthers(db', entries[1..], tableName, domain, e.tableType);
    } else {
      assert entries[1..][i - 1] == entries[i];
      RefreshLastWins(db', entries[1..], tableName, domain, i - 1);
    }
  }

  /** What a listed type ends up with does not depend on the mapping before the refresh. */
  lemma {:induction false} RefreshForgetsListed(db1: map<string, string>, db2: map<string, string>,
                                                entries: seq<MappingEntry>, tableName: TableNamer,
                                                domain: string, t: string)
    requires t in Types(entries)
    ensures Refresh(db1, entries, tableName, domain)[t] == Refresh(db2, entries, tableName, domain)[t]
    decreases |entries|
  {
    var e := entries[0];
    var v := TableNameOf(e, tableName, domain);
    TypesTail(entries, t);
    if t in Types(entries[1..]) {
      RefreshForgetsListed(db1[e.tableType := v], db2[e.tableType := v], entries[1..], tableName, domain, t);
    } else {
      RefreshLeavesOthers(db1[e.tableType := v], entries[1..], tableName, domain, t);
      RefreshLeavesOthers(db2[e.tableType := v], entries[1..], tableName, domain, t);
    }
  }

  /** Running the refresh a second time changes nothing. */
  lemma RefreshIdempotent(db: map<string, string>, entries: seq<MappingEntry>, tableName: TableNamer,
                          domain: string)
    ensures var once := Refresh(db, entries, tableName, domain);
      Refresh(once, entries, tableName, domain) == once
  {
    var once := Refresh(db, entries, tableName, domain);
    var twice := Refresh(once, entries, tableName, domain);
    forall t | t in twice
      ensures twice[t] == once[t]
    {
      if t in Types(entries) {
        RefreshForgetsListed(once, db, entries, tableName, domain, t);
      } else {
        RefreshLeavesOthers(once, entries, tableName, domain, t);
      }
    }
  }

  /** The eighteen rows of `UCR_TABLE_NAME_MAPPING` have eighteen different types, and two
      of them (the complementary-feeding and take-home-ration tables) are not report-builder
      rows. */
  lemma MappingTypesDistinct()
    ensures |UcrTableNameMapping| == 18
    ensures forall i, j :: 0 <= i < j < |UcrTableNameMapping| ==>
      UcrTableNameMapping[i].tableType != UcrTableNameMapping[j].tableType
    ensures forall i :: 0 <= i < |UcrTableNameMapping| ==>
      (!UcrTableNameMapping[i].isUcr <==> UcrTableNameMapping[i].tableType in {"complementary_feeding", "thr_form"})
  {
  }

  /** After `_update_ucr_table_mapping`, the mapping holds every type it held before and the
      eighteen listed types; each listed type maps to the report table of its name, or for
      the two plain rows to the name itself; every other type is untouched. */
  lemma UpdateUcrTableMapping(db: map<string, string>, tableName: TableNamer, domain: string)
    ensures var r := Refresh(db, UcrTableNameMapping, tableName, domain);
      && r.Keys == db.Keys + Types(UcrTableNameMapping)
      && (forall i :: 0 <= i < |UcrTableNameMapping| ==>
            r[UcrTableNameMapping[i].tableType]
              == if UcrTableNameMapping[i].isUcr then tableName(domain, UcrTableNameMapping[i].name)
                 else UcrTableNameMapping[i].name)
      && (forall t :: t in db && t !in Types(UcrTableNameMapping) ==> r[t] == db[t])
  {
    MappingTypesDistinct();
    forall i | 0 <= i < |UcrTableNameMapping|
      ensures Refresh(db, UcrTableNameMapping, tableName, domain)[UcrTableNameMapping[i].tableType]
        == TableNameOf(UcrTableNameMapping[i], tableName, domain)
    {
      RefreshLastWins(db, UcrTableNameMapping, tableName, domain, i);
    }
    forall t | t in db && t !in Types(UcrTableNameMapping)
      ensures Refresh(db, UcrTableNameMapping, tableName, domain)[t] == db[t]
    {
      RefreshLeavesOthers(db, UcrTableNameMapping, tableName, domain, t);
    }
  }
}
