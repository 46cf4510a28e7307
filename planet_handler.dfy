/**
 * `handle_planet_data_message` with its SQL calls taken out: the planet row
 * is inserted whole, updated with its changed fields, or left alone; each
 * nested record is inserted when its key is new, updated with its changed
 * fields when its key exists and something differs, and skipped otherwise.
 * Nothing is ever deleted: a plan has no place for a delete.
 */
module PlanetHandler {
  import opened Wrappers
  import opened PyValues
  import opened Reconcile
  import opened KeyedLists

  /** The nested tables, in the order the handler visits them, each with the payload key it is read from. */
  const Tables: seq<(string, string)> :=
    [("planet_resources", "resources"), ("planet_build_options", "build_options"), ("planet_projects", "projects")]

  /** The columns that identify a row of a nested table; None for a table the handler does not know. */
  function KeyFields(table: string): (r: Option<seq<string>>)
    ensures r.Some? <==> table in {"planet_resources", "planet_build_options", "planet_projects"}
    ensures r.Some? ==> |r.value| == 2 && r.value[0] == "planetid"
  {
    if table == "planet_resources" then Some(["planetid", "materialid"])
    else if table == "planet_build_options" then Some(["planetid", "sitetype"])
    else if table == "planet_projects" then Some(["planetid", "type"])
    else None
  }

  /** `(tuple(rec.get(k) for k in key_fields), rec)` for each fetched row. */
  function KeyedRows(rows: seq<Row>, fields: seq<string>): (ps: seq<(seq<Value>, Row)>)
    ensures |ps| == |rows| && forall i :: 0 <= i < |rows| ==> ps[i] == (KeyOf(rows[i], fields), rows[i])
  {
    seq(|rows|, i requires 0 <= i < |rows| => (KeyOf(rows[i], fields), rows[i]))
  }

  /**
   * `existing_records_dict.get(key)` for `{key(rec): rec for rec in rows}`:
   * a later row with the same key replaces an earlier one.
   */
  function Stored(rows: seq<Row>, fields: seq<string>, key: seq<Value>): (r: Option<Row>)
    ensures r.Some? ==> r.value in rows && KeyOf(r.value, fields) == key
  {
    var ps := KeyedRows(rows, fields);
    var r := LastKeyed(ps, key);
    assert r.Some? ==> exists i :: 0 <= i < |rows| && ps[i] == (key, r.value);
    r
  }

  /** Every key some fetched row has is stored (and, by `Stored`'s contract, only those). */
  lemma StoredFound(rows: seq<Row>, fields: seq<string>, i: nat)
    requires i < |rows|
    ensures Stored(rows, fields, KeyOf(rows[i], fields)).Some?
  {
    LastKeyedFound(KeyedRows(rows, fields), i);
  }

  /** Where one payload record goes. */
  datatype Placement = Insert | Change(changed: Row) | Keep

  function Place(fields: seq<string>, rec: Row, fetched: seq<Row>): Placement
  {
    match Stored(fetched, fields, KeyOf(rec, fields))
    case None => Insert
    case Some(prev) =>
      var changed := ChangedFields(rec, prev);
      if changed != [] then Change(changed) else Keep
  }

  /** The UPDATE for a record with changed fields: keys first as `$1..$k`, changed values after. */
  function ChangeOf(fields: seq<string>, rec: Row, changed: Row): Update
  {
    KeyFirstUpdate(fields, KeyOf(rec, fields), changed)
  }

  /** `records_to_insert` after the loop has seen `recs`: the records whose key is new, in order. */
  function NestedInserts(fields: seq<string>, recs: seq<Row>, fetched: seq<Row>): (r: seq<Row>)
    ensures forall row :: row in r ==> row in recs && Stored(fetched, fields, KeyOf(row, fields)).None?
  {
    if recs == [] then []
    else
      var last := recs[|recs| - 1];
      NestedInserts(fields, recs[..|recs| - 1], fetched) + if Place(fields, last, fetched).Insert? then [last] else []
  }

  /**
   * `records_to_update` after the loop has seen `recs`: one UPDATE per record
   * whose key exists and whose fields differ, addressed by an existing key
   * and setting at least one column.
   */
  function NestedUpdates(fields: seq<string>, recs: seq<Row>, fetched: seq<Row>): (r: seq<Update>)
    ensures forall u :: u in r ==>
      |fields| <= |u.args| && Stored(fetched, fields, u.args[..|fields|]).Some? && |u.conditions| == |fields| && u.assignments != []
  {
    if recs == [] then []
    else
      var last := recs[|recs| - 1];
      var p := Place(fields, last, fetched);
      NestedUpdates(fields, recs[..|recs| - 1], fetched) + if p.Change? then [ChangeOf(fields, last, p.changed)] else []
  }

  /** The number of records whose key exists and whose fields all agree. */
  function KeptCount(fields: seq<string>, recs: seq<Row>, fetched: seq<Row>): nat
  {
    if recs == [] then 0
    else KeptCount(fields, recs[..|recs| - 1], fetched) + if Place(fields, recs[|recs| - 1], fetched).Keep? then 1 else 0
  }

  /** The loop `for record_data in records` of one nested table. */
  method PlanTable(fields: seq<string>, records: seq<Row>, fetched: seq<Row>)
    returns (inserts: seq<Row>, updates: seq<Update>)
    requires forall i :: 0 <= i < |records| ==> UniqueKeys(records[i])
    ensures inserts == NestedInserts(fields, records, fetched) && updates == NestedUpdates(fields, records, fetched)
  {
    inserts, updates := [], [];
    for i := 0 to |records|
      invariant inserts == NestedInserts(fields, records[..i], fetched)
      invariant updates == NestedUpdates(fields, records[..i], fetched)
    {
      var rec := records[i];
      assert records[..i + 1][..i] == records[..i];
      var key := KeyOf(rec, fields);
      var stored := Stored(fetched, fields, key);
      if stored.Some? {
        var changed := GetChangedFields(rec, stored.value);
        if changed != [] {
          updates := updates + [KeyFirstUpdate(fields, key, changed)];
        }
      } else {
        inserts := inserts + [rec];
      }
    }
    assert records[..|records|] == records;
  }

  /**
   * Every record lands where its key says: a new key among the inserts, an
   * existing key with changed fields as an UPDATE of exactly those fields.
   */
  lemma {:induction false} NestedPlaced(fields: seq<string>, recs: seq<Row>, fetched: seq<Row>, i: nat)
    requires i < |recs|
    ensures Place(fields, recs[i], fetched).Insert? ==> recs[i] in NestedInserts(fields, recs, fetched)
    ensures var p := Place(fields, recs[i], fetched);
      p.Change? ==> ChangeOf(fields, recs[i], p.changed) in NestedUpdates(fields, recs, fetched)
  {
    var n := |recs| - 1;
    if i < n {
      NestedPlaced(fields, recs[..n], fetched, i);
      assert recs[..n][i] == recs[i];
    }
  }

  /** Each record is inserted, updated or kept, exactly one of them. */
  lemma {:induction false} NestedCounts(fields: seq<string>, recs: seq<Row>, fetched: seq<Row>)
    ensures |NestedInserts(fields, recs, fetched)| + |NestedUpdates(fields, recs, fetched)| + KeptCount(fields, recs, fetched) == |recs|
  {
    if recs != [] {
      NestedCounts(fields, recs[..|recs| - 1], fetched);
    }
  }

  /** What the handler writes to one nested table. */
  datatype TablePlan = TablePlan(table: string, inserts: seq<Row>, updates: seq<Update>)

  /** The plan for one nested table, when its records are present and the table is known. */
  function TablePlanOf(data: Row, fetched: string -> seq<Row>, table: string, source: string): (r: Option<TablePlan>)
    ensures r.Some? <==> Truthy(GetOr(data, source, VList([]))) && KeyFields(table).Some?
    ensures r.Some? ==> r.value.table == table
  {
    var records := GetOr(data, source, VList([]));
    if !Truthy(records) then None
    else
      match KeyFields(table)
      case None => None
      case Some(fields) =>
        Some(TablePlan(table, NestedInserts(fields, DictRows(records), fetched(table)),
                       NestedUpdates(fields, DictRows(records), fetched(table))))
  }

  /** The table plans after the loop over `ts`. */
  function TablePlans(data: Row, fetched: string -> seq<Row>, ts: seq<(string, string)>): (r: seq<TablePlan>)
    ensures |r| <= |ts|
  {
    if ts == [] then []
    else
      var t := ts[|ts| - 1];
      var init := TablePlans(data, fetched, ts[..|ts| - 1]);
      match TablePlanOf(data, fetched, t.0, t.1)
      case None => init
      case Some(p) => init + [p]
  }

  datatype PlanetOutcome =
    | InvalidPlanet
    | PlanetPlan(planet: RowWrite, tables: seq<TablePlan>)

  /** A payload without a planet dict, or whose planet has no truthy `planetid`, is refused. */
  predicate ValidPlanet(planet: Value)
  {
    Truthy(planet) && Truthy(Field(planet, "planetid"))
  }

  /** Step 2 of the handler: the loop over the nested tables. */
  method PlanTables(data: Row, fetched: string -> seq<Row>) returns (plans: seq<TablePlan>)
    requires WellFormed(VDict(data))
    ensures plans == TablePlans(data, fetched, Tables)
  {
    plans := [];
    for i := 0 to |Tables|
      invariant plans == TablePlans(data, fetched, Tables[..i])
    {
      assert Tables[..i + 1][..i] == Tables[..i];
      var table, source := Tables[i].0, Tables[i].1;
      var records := GetOr(data, source, VList([]));
      if !Truthy(records) {
        continue;
      }
      var fields: seq<string>;
      match KeyFields(table) {
        case None =>
          continue;
        case Some(f) =>
          fields := f;
      }
      GetWellFormed(data, source, VList([]));
      DictRowsUnique(records);
      var inserts, updates := PlanTable(fields, DictRows(records), fetched(table));
      assert TablePlanOf(data, fetched, table, source) == Some(TablePlan(table, inserts, updates));
      plans := plans + [TablePlan(table, inserts, updates)];
    }
    assert Tables[..|Tables|] == Tables;
  }

  /**
   * `handle_planet_data_message` given the converted data, the planet row
   * the database holds and the rows each nested table holds for the planet.
   */
  method HandlePlanetData(data: Row, existingPlanet: Option<Row>, fetched: string -> seq<Row>)
    returns (outcome: PlanetOutcome)
    requires WellFormed(VDict(data))
    ensures var planet := Get(data, "planets");
      outcome == if !ValidPlanet(planet) then InvalidPlanet
                 else PlanetPlan(WriteOf(planet.entries, "planetid", Field(planet, "planetid"), existingPlanet), TablePlans(data, fetched, Tables))
  {
    var planet := Get(data, "planets");
    if !ValidPlanet(planet) {
      return InvalidPlanet;
    }
    GetWellFormed(data, "planets", VNone);
    var write := WriteRow(planet.entries, "planetid", Field(planet, "planetid"), existingPlanet);
    var plans := PlanTables(data, fetched);
    outcome := PlanetPlan(write, plans);
  }

  /** Every nested table the handler writes is visited in `ts`, planned from its own records. */
  lemma {:induction false} PlannedFrom(data: Row, fetched: string -> seq<Row>, ts: seq<(string, string)>, p: TablePlan)
    requires p in TablePlans(data, fetched, ts)
    ensures exists t :: t in ts && TablePlanOf(data, fetched, t.0, t.1) == Some(p)
  {
    var n := |ts| - 1;
    var init := TablePlans(data, fetched, ts[..n]);
    if p in init {
      PlannedFrom(data, fetched, ts[..n], p);
      var t :| t in ts[..n] && TablePlanOf(data, fetched, t.0, t.1) == Some(p);
      assert t in ts;
    } else {
      assert ts[n] in ts;
    }
  }

  /** The tables written are among the three known ones, each planned from its own payload list. */
  lemma PlannedTables(data: Row, fetched: string -> seq<Row>, p: TablePlan)
    requires p in TablePlans(data, fetched, Tables)
    ensures p.table in {"planet_resources", "planet_build_options", "planet_projects"}
    ensures var fields := KeyFields(p.table).value;
      var source := if p.table == "planet_resources" then "resources"
                    else if p.table == "planet_build_options" then "build_options" else "projects";
      var records := DictRows(GetOr(data, source, VList([])));
      p.inserts == NestedInserts(fields, records, fetched(p.table))
      && p.updates == NestedUpdates(fields, records, fetched(p.table))
  {
    PlannedFrom(data, fetched, Tables, p);
    var t :| t in Tables && TablePlanOf(data, fetched, t.0, t.1) == Some(p);
  }
}
