/**
 * `process_all_site_data` and its helpers with the SQL calls taken out.
 * Each site row is inserted, updated with its changed fields or left
 * alone; its building options and platforms are written without their
 * nested lists; those lists are gathered and upserted in chunks; and the
 * platform materials the database holds but the payload no longer lists
 * are deleted.
 */
module SitesHandler {
  import opened Wrappers
  import opened PyValues
  import opened Reconcile
  import opened Flattening

  // ---------------------------------------------------------------------
  // _upsert_records

  /** The batch size `_upsert_records` is called with. */
  const ChunkSize: nat := 5000

  /** `records[i:i + size]` for `i` in `range(0, len(records), size)`. */
  function ChunksOf<T>(records: seq<T>, size: nat): seq<seq<T>>
    requires size > 0
    decreases |records|
  {
    if records == [] then []
    else if |records| <= size then [records]
    else [records[..size]] + ChunksOf(records[size..], size)
  }

  /** All but the last chunk hold exactly `size` records. */
  predicate FullChunks<T>(chunks: seq<seq<T>>, size: nat)
  {
    forall i :: 0 <= i < |chunks| - 1 ==> |chunks[i]| == size
  }

  /**
   * The chunks give back the records in order, each chunk holds between 1
   * and `size` records, and all but the last hold exactly `size`.
   */
  lemma {:induction false} ChunksSpec<T>(records: seq<T>, size: nat)
    requires size > 0
    ensures Flatten(ChunksOf(records, size)) == records
    ensures forall i :: 0 <= i < |ChunksOf(records, size)| ==> 0 < |ChunksOf(records, size)[i]| <= size
    ensures FullChunks(ChunksOf(records, size), size)
    decreases |records|
  {
    if records != [] && |records| > size {
      var head, rest := records[..size], ChunksOf(records[size..], size);
      ChunksSpec(records[size..], size);
      FlattenAppend([head], rest);
      assert Flatten([head]) == head by {
        assert [head][..0] == [];
      }
      assert head + records[size..] == records;
      assert forall i :: 1 <= i < |[head] + rest| ==> ([head] + rest)[i] == rest[i - 1];
    } else if records != [] {
      assert Flatten([records]) == records by {
        assert [records][..0] == [];
      }
    }
  }

  /** The loop `for i in range(0, len(records), chunk_size)`. */
  method Chunks<T>(records: seq<T>, size: nat) returns (chunks: seq<seq<T>>)
    requires size > 0
    ensures chunks == ChunksOf(records, size)
  {
    chunks := [];
    var i := 0;
    while i < |records|
      invariant 0 <= i <= |records|
      invariant chunks + ChunksOf(records[i..], size) == ChunksOf(records, size)
      decreases |records| - i
    {
      var rest := records[i..];
      if |rest| <= size {
        chunks := chunks + [rest];
        i := |records|;
        assert records[i..] == [];
      } else {
        assert rest[size..] == records[i + size..];
        assert rest[..size] == records[i..i + size];
        assert ChunksOf(rest, size) == [rest[..size]] + ChunksOf(records[i + size..], size);
        AppendAssoc(chunks, [rest[..size]], ChunksOf(records[i + size..], size));
        chunks := chunks + [records[i..i + size]];
        i := i + size;
      }
    }
    assert records[i..] == [];
  }

  /** One entry of the `DO UPDATE SET` list: `col = EXCLUDED.col`, guarded by `IS DISTINCT FROM` or not. */
  datatype Assignment = Assign(column: string) | AssignIfDistinct(column: string)

  /** The `SET` entry of a column that is not a conflict key. */
  function ClauseFor(col: string): (a: Assignment)
    ensures a.column == col
    ensures a.AssignIfDistinct? <==> col == "capacity" || col == "amount"
  {
    if col == "capacity" || col == "amount" then AssignIfDistinct(col) else Assign(col)
  }

  /** `set_clauses` after the loop has seen `columns`. */
  function SetClausesOf(columns: seq<string>, unique: seq<string>): (r: seq<Assignment>)
    ensures forall i :: 0 <= i < |r| ==> r[i].column in columns && r[i].column !in unique
    ensures forall i :: 0 <= i < |r| ==> (r[i].AssignIfDistinct? <==> r[i].column == "capacity" || r[i].column == "amount")
  {
    if columns == [] then []
    else
      var col := columns[|columns| - 1];
      var init := SetClausesOf(columns[..|columns| - 1], unique);
      assert forall i :: 0 <= i < |init| ==> init[i].column in columns;
      init + if col in unique then [] else [ClauseFor(col)]
  }

  /** Every column that is not a conflict key gets its `SET` entry. */
  lemma {:induction false} SetClausesComplete(columns: seq<string>, unique: seq<string>, i: nat)
    requires i < |columns| && columns[i] !in unique
    ensures ClauseFor(columns[i]) in SetClausesOf(columns, unique)
  {
    var n := |columns| - 1;
    var init := SetClausesOf(columns[..n], unique);
    if i < n {
      assert columns[..n][i] == columns[i];
      SetClausesComplete(columns[..n], unique, i);
      var j :| 0 <= j < |init| && init[j] == ClauseFor(columns[i]);
      assert SetClausesOf(columns, unique)[j] == init[j];
    } else {
      assert SetClausesOf(columns, unique)[|init|] == ClauseFor(columns[n]);
    }
  }

  /** No `SET` entry at all exactly when every column is a conflict key. */
  lemma {:induction false} NoSetClauses(columns: seq<string>, unique: seq<string>)
    ensures SetClausesOf(columns, unique) == [] <==> forall i :: 0 <= i < |columns| ==> columns[i] in unique
  {
    if columns != [] {
      var n := |columns| - 1;
      NoSetClauses(columns[..n], unique);
      assert forall i :: 0 <= i < n ==> columns[..n][i] == columns[i];
    }
  }

  /** The loop `for col in columns` that builds `set_clauses`. */
  method SetClauses(columns: seq<string>, unique: seq<string>) returns (clauses: seq<Assignment>)
    ensures clauses == SetClausesOf(columns, unique)
  {
    clauses := [];
    for i := 0 to |columns|
      invariant clauses == SetClausesOf(columns[..i], unique)
    {
      var col := columns[i];
      assert columns[..i + 1][..i] == columns[..i];
      if col !in unique {
        if col == "capacity" {
          clauses := clauses + [AssignIfDistinct("capacity")];
        } else if col == "amount" {
          clauses := clauses + [AssignIfDistinct("amount")];
        } else {
          clauses := clauses + [Assign(col)];
        }
      } else {
        assert SetClausesOf(columns[..i], unique) + [] == SetClausesOf(columns[..i], unique);
      }
    }
    assert columns[..|columns|] == columns;
  }

  /** `ON CONFLICT (...) DO UPDATE SET ...`, or `DO NOTHING` when there is nothing to set. */
  datatype OnConflict = DoUpdate(set_: seq<Assignment>) | DoNothing

  /** One `_upsert_records` call: columns from the first record, the conflict keys, the conflict action, the batches. */
  datatype Upsert = Upsert(table: string, columns: seq<string>, conflict: seq<string>, action: OnConflict, chunks: seq<seq<Row>>)

  /** `_upsert_records(con, table, records, unique_fields, chunk_size)`; None when there are no records. */
  function UpsertOf(table: string, records: seq<Row>, unique: seq<string>, chunkSize: nat): (u: Option<Upsert>)
    requires chunkSize > 0
    ensures u.None? <==> records == []
    ensures u.Some? ==> u.value.columns == Keys(records[0]) && u.value.conflict == unique
  {
    if records == [] then None
    else
      var columns := Keys(records[0]);
      var clauses := SetClausesOf(columns, unique);
      Some(Upsert(table, columns, unique, if clauses == [] then DoNothing else DoUpdate(clauses), ChunksOf(records, chunkSize)))
  }

  method UpsertRecords(table: string, records: seq<Row>, unique: seq<string>, chunkSize: nat) returns (u: Option<Upsert>)
    requires chunkSize > 0
    ensures u == UpsertOf(table, records, unique, chunkSize)
  {
    if records == [] {
      return None;
    }
    var columns := Keys(records[0]);
    var clauses := SetClauses(columns, unique);
    var action := if clauses == [] then DoNothing else DoUpdate(clauses);
    var chunks := Chunks(records, chunkSize);
    u := Some(Upsert(table, columns, unique, action, chunks));
  }

  /**
   * An upsert issues every record exactly once and in order, in batches of
   * at most `chunkSize`; it updates on conflict every non-key column of the
   * first record, and does nothing on conflict when there is none.
   */
  lemma UpsertSpec(table: string, records: seq<Row>, unique: seq<string>, chunkSize: nat)
    requires chunkSize > 0 && records != []
    ensures var u := UpsertOf(table, records, unique, chunkSize).value;
      Flatten(u.chunks) == records
      && (forall i :: 0 <= i < |u.chunks| ==> 0 < |u.chunks[i]| <= chunkSize)
      && FullChunks(u.chunks, chunkSize)
      && (u.action.DoNothing? <==> forall i :: 0 <= i < |u.columns| ==> u.columns[i] in unique)
  {
    ChunksSpec(records, chunkSize);
    NoSetClauses(Keys(records[0]), unique);
  }

  // ---------------------------------------------------------------------
  // _handle_deletions_by_platforms

  /** `set(tuple(rec.values()) for rec in existing_records)`. */
  function StoredKeySet(stored: seq<Row>): set<seq<Value>>
  {
    set r | r in stored :: Values(r)
  }

  /** `set(tuple(rec[field] for field in unique_fields) for rec in current_records)`. */
  function PayloadKeys(current: seq<Row>, fields: seq<string>): set<seq<Value>>
  {
    set r | r in current :: KeyOf(r, fields)
  }

  /**
   * The keys to delete, given the keys the database holds for the payload's
   * platforms: None (no statement) when there are no platform ids or no key
   * is missing from the payload; otherwise exactly the stored keys the
   * payload lacks.
   */
  function DeletionOf(fields: seq<string>, current: seq<Row>, platformIds: seq<Value>, stored: seq<Row>): (r: Option<set<seq<Value>>>)
    ensures r.None? <==> platformIds == [] || StoredKeySet(stored) <= PayloadKeys(current, fields)
    ensures r.Some? ==> r.value != {} && forall k :: k in r.value <==> k in StoredKeySet(stored) && k !in PayloadKeys(current, fields)
  {
    if platformIds == [] then None
    else
      var toDelete := StoredKeySet(stored) - PayloadKeys(current, fields);
      DifferenceEmpty(StoredKeySet(stored), PayloadKeys(current, fields));
      if toDelete == {} then None else Some(toDelete)
  }

  lemma DifferenceEmpty<T>(a: set<T>, b: set<T>)
    ensures a - b == {} <==> a <= b
  {
    if a - b == {} {
      forall k | k in a ensures k in b {
        assert k !in a - b;
      }
    }
  }

  /** A payload record's key is never deleted. */
  lemma PayloadKeyKept(fields: seq<string>, current: seq<Row>, platformIds: seq<Value>, stored: seq<Row>, i: nat)
    requires i < |current|
    ensures var r := DeletionOf(fields, current, platformIds, stored);
      r.Some? ==> KeyOf(current[i], fields) !in r.value
  {
    assert current[i] in current;
  }

  // ---------------------------------------------------------------------
  // _handle_all_nested_data

  /** The nested lists a building option row and a platform row are written without. */
  const OptionLists: set<string> := {"materials", "workforcecapacities"}
  const PlatformLists: set<string> := {"reclaimable_materials", "repair_materials"}

  /** Each record's copy with the nested lists popped. */
  function CleanRows(rows: seq<Row>, drop: set<string>): (r: seq<Row>)
    ensures |r| == |rows|
    ensures forall i :: 0 <= i < |r| ==> r[i] == RemoveAll(rows[i], drop)
  {
    seq(|rows|, i requires 0 <= i < |rows| => RemoveAll(rows[i], drop))
  }

  /** A cleaned row lacks every dropped key and keeps every other field as it was. */
  lemma CleanRowFields(rows: seq<Row>, drop: set<string>, i: nat, k: string)
    requires i < |rows|
    ensures !exists d :: d in drop && HasKey(CleanRows(rows, drop)[i], d)
    ensures k !in drop ==> Get(CleanRows(rows, drop)[i], k) == Get(rows[i], k)
  {
    if k !in drop {
      RemoveAllGet(rows[i], drop, k);
    }
  }

  /** The loop collecting the records for one table without their nested lists. */
  method CleanRecords(rows: seq<Row>, drop: set<string>) returns (clean: seq<Row>)
    ensures clean == CleanRows(rows, drop)
  {
    clean := [];
    for i := 0 to |rows|
      invariant clean == CleanRows(rows, drop)[..i]
    {
      var record := RemoveAll(rows[i], drop);
      Extend(clean, CleanRows(rows, drop), i, record);
      clean := clean + [record];
    }
    TakeAll(CleanRows(rows, drop));
  }

  /** What one row adds: the records of its `list` field when its `id` field is truthy, nothing otherwise. */
  function Listed(row: Row, id: string, list: string): seq<Row>
  {
    if Truthy(Get(row, id)) then DictRows(GetOr(row, list, VList([]))) else []
  }

  /** What each row adds. */
  function ListsOf(rows: seq<Row>, id: string, list: string): (ls: seq<seq<Row>>)
    ensures |ls| == |rows| && forall i :: 0 <= i < |rows| ==> ls[i] == Listed(rows[i], id, list)
  {
    seq(|rows|, i requires 0 <= i < |rows| => Listed(rows[i], id, list))
  }

  /** The records of the `list` field of each row with a truthy `id` field, list after list. */
  function Gather(rows: seq<Row>, id: string, list: string): seq<Row>
  {
    Flatten(ListsOf(rows, id, list))
  }

  /** Every gathered record belongs to the list of a row whose id is truthy. */
  lemma GatheredFrom(rows: seq<Row>, id: string, list: string, x: Row)
    requires x in Gather(rows, id, list)
    ensures exists i :: 0 <= i < |rows| && Truthy(Get(rows[i], id)) && x in DictRows(GetOr(rows[i], list, VList([])))
  {
    FlattenFrom(ListsOf(rows, id, list), x);
  }

  /** The list of every row with a truthy id is gathered whole. */
  lemma GatheredAll(rows: seq<Row>, id: string, list: string, i: nat, x: Row)
    requires i < |rows| && Truthy(Get(rows[i], id)) && x in DictRows(GetOr(rows[i], list, VList([])))
    ensures x in Gather(rows, id, list)
  {
    FlattenIn(ListsOf(rows, id, list), i, x);
  }

  /** The loop that extends the two lists of each row with a truthy id. */
  method GatherLists(rows: seq<Row>, id: string, first: string, second: string) returns (a: seq<Row>, b: seq<Row>)
    ensures a == Gather(rows, id, first) && b == Gather(rows, id, second)
  {
    ghost var la, lb := ListsOf(rows, id, first), ListsOf(rows, id, second);
    a, b := [], [];
    for i := 0 to |rows|
      invariant a == Flatten(la[..i]) && b == Flatten(lb[..i])
    {
      var row := rows[i];
      FlattenTake(la, i);
      FlattenTake(lb, i);
      if !Truthy(Get(row, id)) {
        assert a + [] == a && b + [] == b;
        continue;
      }
      a := a + DictRows(GetOr(row, first, VList([])));
      b := b + DictRows(GetOr(row, second, VList([])));
    }
    TakeAll(la);
    TakeAll(lb);
  }

  function PlatformIdOf(p: Row): Value
  {
    Get(p, "platformid")
  }

  /** The loop over the platforms: every platform's id (None included) and its row without the nested lists. */
  method PlatformRecords(platforms: seq<Row>) returns (ids: seq<Value>, clean: seq<Row>)
    ensures ids == Map(platforms, PlatformIdOf) && clean == CleanRows(platforms, PlatformLists)
  {
    ids, clean := [], [];
    for i := 0 to |platforms|
      invariant ids == Map(platforms[..i], PlatformIdOf) && clean == CleanRows(platforms, PlatformLists)[..i]
    {
      MapStep(platforms, PlatformIdOf, i);
      ids := ids + [Get(platforms[i], "platformid")];
      var record := RemoveAll(platforms[i], PlatformLists);
      Extend(clean, CleanRows(platforms, PlatformLists), i, record);
      clean := clean + [record];
    }
    TakeAll(platforms);
    TakeAll(CleanRows(platforms, PlatformLists));
  }

  /** The key of a platform material row. */
  const MaterialKey: seq<string> := ["platformid", "materialid", "materialtype"]

  /** What `_handle_all_nested_data` writes for one site. */
  datatype NestedPlan = NestedPlan(
    /** `INSERT INTO buildings ... ON CONFLICT DO NOTHING`, one per option (none when empty). */
    buildings: seq<Row>,
    /** The upsert into `site_platforms` on `platformid`, one per platform (none when empty). */
    platforms: seq<Row>,
    /** Building materials, workforce capacities, reclaimable and repair materials, in that order. */
    upserts: seq<Option<Upsert>>,
    /** The platform material keys deleted. */
    deletion: Option<set<seq<Value>>>)

  function NestedPlanOf(site: Row, storedKeys: seq<Value> -> seq<Row>): (r: NestedPlan)
    ensures |r.buildings| == |DictRows(GetOr(site, "building_options", VList([])))|
    ensures |r.platforms| == |DictRows(GetOr(site, "platforms", VList([])))|
    ensures |r.upserts| == 4
  {
    var options := DictRows(GetOr(site, "building_options", VList([])));
    var platforms := DictRows(GetOr(site, "platforms", VList([])));
    var ids := Map(platforms, PlatformIdOf);
    var reclaimables := Gather(platforms, "platformid", "reclaimable_materials");
    var repairs := Gather(platforms, "platformid", "repair_materials");
    NestedPlan(
      CleanRows(options, OptionLists),
      CleanRows(platforms, PlatformLists),
      [UpsertOf("building_build_materials", Gather(options, "buildingid", "materials"), ["buildingid", "materialid"], ChunkSize),
       UpsertOf("building_workforce_capacities", Gather(options, "buildingid", "workforcecapacities"), ["buildingid", "workforcelevel"], ChunkSize),
       UpsertOf("platform_materials", reclaimables, MaterialKey, ChunkSize),
       UpsertOf("platform_materials", repairs, MaterialKey, ChunkSize)],
      DeletionOf(MaterialKey, reclaimables + repairs, ids, storedKeys(ids)))
  }

  /**
   * The site has a `building_options` key, and both its options and its
   * platforms are non-empty lists. Otherwise `_handle_all_nested_data`
   * raises: a missing key is a `KeyError`, and an empty list leaves its
   * insert task None, which `asyncio.gather` rejects with a `TypeError`.
   */
  predicate HasNestedRecords(site: Row)
  {
    HasKey(site, "building_options")
    && |DictRows(GetOr(site, "building_options", VList([])))| > 0
    && |DictRows(GetOr(site, "platforms", VList([])))| > 0
  }

  /**
   * The building rows whose insert task exists when the first `asyncio.gather`
   * is called: none without a `building_options` key (the `KeyError` comes
   * first) or without options.
   */
  function ScheduledOf(site: Row): (r: seq<Row>)
    ensures |r| > 0 <==> HasKey(site, "building_options") && |DictRows(GetOr(site, "building_options", VList([])))| > 0
  {
    if HasKey(site, "building_options") then CleanRows(DictRows(GetOr(site, "building_options", VList([]))), OptionLists) else []
  }

  /**
   * What `_handle_all_nested_data` does with one site: it writes, or it
   * raises. `asyncio.gather(buildings_task, None)` has already scheduled the
   * buildings insert when it rejects the None, so a raise can leave that
   * insert behind (`scheduled`); `gather(None, ...)` schedules nothing.
   */
  datatype NestedOutcome = NestedRaises(scheduled: seq<Row>) | NestedWrites(plan: NestedPlan)

  function NestedOutcomeOf(site: Row, storedKeys: seq<Value> -> seq<Row>): (r: NestedOutcome)
    ensures r.NestedWrites? ==> |r.plan.buildings| > 0 && |r.plan.platforms| > 0 && |r.plan.upserts| == 4
    ensures r.NestedRaises? ==>
              (r.scheduled != [] <==> HasKey(site, "building_options")
                                      && |DictRows(GetOr(site, "building_options", VList([])))| > 0
                                      && |DictRows(GetOr(site, "platforms", VList([])))| == 0)
  {
    if HasNestedRecords(site) then NestedWrites(NestedPlanOf(site, storedKeys)) else NestedRaises(ScheduledOf(site))
  }

  /** `_handle_all_nested_data(con, site_data)` given the platform material keys the database holds for some platforms. */
  method HandleNestedData(site: Row, storedKeys: seq<Value> -> seq<Row>) returns (outcome: NestedOutcome)
    ensures outcome == NestedOutcomeOf(site, storedKeys)
  {
    if !HasKey(site, "building_options") {
      return NestedRaises([]);
    }
    var options := DictRows(GetOr(site, "building_options", VList([])));
    var buildings := CleanRecords(options, OptionLists);
    var materials, workforce := GatherLists(options, "buildingid", "materials", "workforcecapacities");
    var platforms := DictRows(GetOr(site, "platforms", VList([])));
    var ids, platformRows := PlatformRecords(platforms);
    var reclaimables, repairs := GatherLists(platforms, "platformid", "reclaimable_materials", "repair_materials");
    if buildings == [] || platformRows == [] {
      return NestedRaises(buildings);
    }
    var u1 := UpsertRecords("building_build_materials", materials, ["buildingid", "materialid"], ChunkSize);
    var u2 := UpsertRecords("building_workforce_capacities", workforce, ["buildingid", "workforcelevel"], ChunkSize);
    var u3 := UpsertRecords("platform_materials", reclaimables, MaterialKey, ChunkSize);
    var u4 := UpsertRecords("platform_materials", repairs, MaterialKey, ChunkSize);
    var deletion := DeletionOf(MaterialKey, reclaimables + repairs, ids, storedKeys(ids));
    outcome := NestedWrites(NestedPlan(buildings, platformRows, [u1, u2, u3, u4], deletion));
  }

  // ---------------------------------------------------------------------
  // process_all_site_data

  /** The keys the `sites` row is written without. */
  const SiteLists: set<string> := {"building_options", "platforms"}

  /** The site after `site_data['userid'] = userid`. */
  function WithUser(site: Row, userId: Value): Row
  {
    Put(site, "userid", userId)
  }

  /** The `sites` row: the site with its user id, without its nested lists. */
  function SiteRow(site: Row, userId: Value): Row
  {
    RemoveAll(WithUser(site, userId), SiteLists)
  }

  /** The `sites` row holds the user id, keeps every other field, and has no nested list. */
  lemma SiteRowFields(site: Row, userId: Value, k: string)
    ensures !HasKey(SiteRow(site, userId), "building_options") && !HasKey(SiteRow(site, userId), "platforms")
    ensures Get(SiteRow(site, userId), "userid") == userId
    ensures k !in SiteLists && k != "userid" ==> Get(SiteRow(site, userId), k) == Get(site, k)
  {
    RemoveAllGet(WithUser(site, userId), SiteLists, "userid");
    PutGet(site, "userid", userId, "userid");
    if k !in SiteLists {
      RemoveAllGet(WithUser(site, userId), SiteLists, k);
      PutGet(site, "userid", userId, k);
    }
  }

  /** What happened to one site with a truthy id. */
  datatype SiteResult = SiteResult(siteId: Value, write: RowWrite, nested: NestedPlan)

  /** The status reported for a site. */
  function Status(w: RowWrite): string
  {
    match w
    case InsertRow(_) => "inserted"
    case UpdateRow(_) => "updated"
    case Unchanged => "unchanged"
  }

  /** The result for one site, given the row the database holds for its id. */
  function SiteResultOf(site: Row, userId: Value, existing: Option<Row>, storedKeys: seq<Value> -> seq<Row>): SiteResult
  {
    var siteId := Get(site, "siteid");
    SiteResult(siteId, WriteOf(SiteRow(site, userId), "siteid", siteId, existing), NestedPlanOf(WithUser(site, userId), storedKeys))
  }

  /** `overall_results` after the loop has seen `sites`: one result per site with a truthy id, in order. */
  function SiteResults(sites: seq<Row>, userId: Value, existingSite: Value -> Option<Row>, storedKeys: seq<Value> -> seq<Row>): seq<SiteResult>
  {
    Pick(Candidates(sites, userId, existingSite, storedKeys), HasSiteId(sites))
  }

  /** The result each site would have. */
  function Candidates(sites: seq<Row>, userId: Value, existingSite: Value -> Option<Row>, storedKeys: seq<Value> -> seq<Row>): (cs: seq<SiteResult>)
    ensures |cs| == |sites|
    ensures forall i :: 0 <= i < |sites| ==> cs[i] == SiteResultOf(sites[i], userId, existingSite(Get(sites[i], "siteid")), storedKeys)
  {
    seq(|sites|, i requires 0 <= i < |sites| => SiteResultOf(sites[i], userId, existingSite(Get(sites[i], "siteid")), storedKeys))
  }

  /** Which sites have a truthy `siteid`. */
  function HasSiteId(sites: seq<Row>): (ks: seq<bool>)
    ensures |ks| == |sites| && forall i :: 0 <= i < |sites| ==> ks[i] == Truthy(Get(sites[i], "siteid"))
  {
    seq(|sites|, i requires 0 <= i < |sites| => Truthy(Get(sites[i], "siteid")))
  }

  /**
   * A site is reported updated exactly when the database holds a row for it
   * and some field differs; unchanged exactly when it holds one and every
   * field agrees; inserted exactly when it holds none.
   */
  lemma SiteStatus(site: Row, userId: Value, existing: Option<Row>, storedKeys: seq<Value> -> seq<Row>)
    requires UniqueKeys(site)
    ensures var row := SiteRow(site, userId);
      var s := Status(SiteResultOf(site, userId, existing, storedKeys).write);
      (s == "inserted" <==> existing.None? || existing.value == [])
      && (s == "unchanged" <==> existing.Some? && existing.value != []
                                && forall i :: 0 <= i < |row| ==> Same(row[i].1, Get(existing.value, row[i].0)))
      && (s == "updated" <==> existing.Some? && existing.value != [] && ChangedFields(row, existing.value) != [])
  {
    PutKeepsUniqueKeys(site, "userid", userId);
    UnchangedIff(SiteRow(site, userId), "siteid", Get(site, "siteid"), existing);
  }

  /** Every result is that of a site with a truthy id. */
  lemma ResultsPerSite(sites: seq<Row>, userId: Value, existingSite: Value -> Option<Row>, storedKeys: seq<Value> -> seq<Row>, r: SiteResult)
    requires r in SiteResults(sites, userId, existingSite, storedKeys)
    ensures exists i :: 0 <= i < |sites| && Truthy(Get(sites[i], "siteid")) && r == SiteResultOf(sites[i], userId, existingSite(Get(sites[i], "siteid")), storedKeys)
  {
    PickFrom(Candidates(sites, userId, existingSite, storedKeys), HasSiteId(sites), r);
  }

  /** Every site with a truthy id has its result. */
  lemma SiteReported(sites: seq<Row>, userId: Value, existingSite: Value -> Option<Row>, storedKeys: seq<Value> -> seq<Row>, i: nat)
    requires i < |sites| && Truthy(Get(sites[i], "siteid"))
    ensures SiteResultOf(sites[i], userId, existingSite(Get(sites[i], "siteid")), storedKeys) in SiteResults(sites, userId, existingSite, storedKeys)
  {
    PickIn(Candidates(sites, userId, existingSite, storedKeys), HasSiteId(sites), i);
  }

  /** The site with a truthy id on which `_handle_all_nested_data` raises. */
  predicate SiteRaises(site: Row, userId: Value)
  {
    Truthy(Get(site, "siteid")) && !HasNestedRecords(WithUser(site, userId))
  }

  /** Which sites raise. */
  function Raising(sites: seq<Row>, userId: Value): (rs: seq<bool>)
    ensures |rs| == |sites| && forall i :: 0 <= i < |sites| ==> rs[i] == SiteRaises(sites[i], userId)
  {
    seq(|sites|, i requires 0 <= i < |sites| => SiteRaises(sites[i], userId))
  }

  /** The position of the first set flag, or `|flags|` when none is set. */
  function FirstSet(flags: seq<bool>): (j: nat)
    ensures j <= |flags|
    ensures j < |flags| ==> flags[j]
    ensures forall i :: 0 <= i < j ==> !flags[i]
  {
    if flags == [] then 0
    else if flags[0] then 0
    else 1 + FirstSet(flags[1..])
  }

  /** A flag at or before the first set one is the first set one when it is set, and lies before it otherwise. */
  lemma FirstSetStep(flags: seq<bool>, i: nat)
    requires i < |flags| && i <= FirstSet(flags)
    ensures flags[i] ==> FirstSet(flags) == i
    ensures !flags[i] ==> i + 1 <= FirstSet(flags)
  {
  }

  /**
   * What a site whose nested data raised has already written, each statement
   * on its own pool connection: its `sites` row write, and the building rows
   * of an insert task already scheduled.
   */
  datatype SiteFailure = SiteFailure(siteId: Value, write: RowWrite, scheduled: seq<Row>)

  function SiteFailureOf(site: Row, userId: Value, existing: Option<Row>): SiteFailure
  {
    var siteId := Get(site, "siteid");
    SiteFailure(siteId, WriteOf(SiteRow(site, userId), "siteid", siteId, existing), ScheduledOf(WithUser(site, userId)))
  }

  /** One site with a truthy id: its result, or what it wrote before it raised. */
  datatype SiteAttempt = SiteDone(result: SiteResult) | SiteFailed(failure: SiteFailure)

  /** One pass of the site loop for a site with a truthy id: its row write and nested data, or what it wrote before its nested data raised. */
  method ProcessSite(site0: Row, userId: Value, existing: Option<Row>, storedKeys: seq<Value> -> seq<Row>)
    returns (r: SiteAttempt)
    requires UniqueKeys(site0) && Truthy(Get(site0, "siteid"))
    ensures r.SiteFailed? <==> SiteRaises(site0, userId)
    ensures r.SiteDone? ==> r.result == SiteResultOf(site0, userId, existing, storedKeys)
    ensures r.SiteFailed? ==> r.failure == SiteFailureOf(site0, userId, existing)
  {
    var siteId := Get(site0, "siteid");
    var site := Put(site0, "userid", userId);
    var row := RemoveAll(site, SiteLists);
    PutKeepsUniqueKeys(site0, "userid", userId);
    var write := WriteRow(row, "siteid", siteId, existing);
    var nested := HandleNestedData(site, storedKeys);
    if nested.NestedRaises? {
      return SiteFailed(SiteFailure(siteId, write, nested.scheduled));
    }
    r := SiteDone(SiteResult(siteId, write, nested.plan));
  }

  /** The results of the first j sites are the first j candidates picked by their ids. */
  lemma SiteResultsPrefix(sites: seq<Row>, j: nat, userId: Value, existingSite: Value -> Option<Row>, storedKeys: seq<Value> -> seq<Row>)
    requires j <= |sites|
    ensures SiteResults(sites[..j], userId, existingSite, storedKeys)
            == Pick(Candidates(sites, userId, existingSite, storedKeys)[..j], HasSiteId(sites)[..j])
  {
    assert Candidates(sites[..j], userId, existingSite, storedKeys) == Candidates(sites, userId, existingSite, storedKeys)[..j];
    assert HasSiteId(sites[..j]) == HasSiteId(sites)[..j];
  }

  /**
   * The loop `for site_data in converted_data_list`. It stops at the first
   * site whose nested data raises, and then reports the results of the sites
   * before it, whose writes stay made, and what that site wrote.
   */
  method ProcessSites(sites: seq<Row>, userId: Value, existingSite: Value -> Option<Row>, storedKeys: seq<Value> -> seq<Row>)
    returns (done: seq<SiteResult>, failure: Option<SiteFailure>)
    requires forall i :: 0 <= i < |sites| ==> UniqueKeys(sites[i])
    ensures var j := FirstSet(Raising(sites, userId));
      (failure.None? <==> j == |sites|)
      && done == SiteResults(sites[..j], userId, existingSite, storedKeys)
      && (failure.Some? ==> failure.value == SiteFailureOf(sites[j], userId, existingSite(Get(sites[j], "siteid"))))
  {
    ghost var cs, ks := Candidates(sites, userId, existingSite, storedKeys), HasSiteId(sites);
    ghost var rs, j := Raising(sites, userId), FirstSet(Raising(sites, userId));
    done := [];
    for i := 0 to |sites|
      invariant done == Pick(cs[..i], ks[..i])
      invariant i <= j
    {
      var raised;
      done, raised, failure := SiteStep(sites, i, userId, existingSite, storedKeys, done);
      FirstSetStep(rs, i);
      if raised {
        SiteResultsPrefix(sites, i, userId, existingSite, storedKeys);
        return;
      }
    }
    failure := None;
    SiteResultsPrefix(sites, |sites|, userId, existingSite, storedKeys);
  }

  /** One pass of the site loop: a site without a truthy id is skipped, any other adds its result or raises. */
  method SiteStep(sites: seq<Row>, i: nat, userId: Value, existingSite: Value -> Option<Row>, storedKeys: seq<Value> -> seq<Row>,
                  done: seq<SiteResult>)
    returns (done': seq<SiteResult>, raised: bool, failure: Option<SiteFailure>)
    requires i < |sites| && UniqueKeys(sites[i])
    requires done == Pick(Candidates(sites, userId, existingSite, storedKeys)[..i], HasSiteId(sites)[..i])
    ensures raised == Raising(sites, userId)[i]
    ensures raised ==> done' == done && failure == Some(SiteFailureOf(sites[i], userId, existingSite(Get(sites[i], "siteid"))))
    ensures !raised ==> done' == Pick(Candidates(sites, userId, existingSite, storedKeys)[..i + 1], HasSiteId(sites)[..i + 1])
  {
    ghost var cs, ks := Candidates(sites, userId, existingSite, storedKeys), HasSiteId(sites);
    PickStep(cs, ks, i);
    failure := None;
    var siteId := Get(sites[i], "siteid");
    if !Truthy(siteId) {
      assert done + [] == done;
      return done, false, None;
    }
    var r := ProcessSite(sites[i], userId, existingSite(siteId), storedKeys);
    if r.SiteFailed? {
      return done, true, Some(r.failure);
    }
    done', raised := done + [r.result], false;
  }

  datatype SitesOutcome =
    | NoSites
    | SitesUserNotFound
    /**
     * An exception left `process_all_site_data`. `handle_sites_data_message`
     * re-raises it. Its transaction is on a connection no statement uses, so
     * the writes of the sites before the failing one (`committed`) and those
     * of the failing site (`failure`) stay made.
     */
    | SitesRaise(committed: seq<SiteResult>, failure: SiteFailure)
    | SitesProcessed(results: seq<SiteResult>)

  /** `process_all_site_data` given the converted site list, the user row and the database's answers. */
  function SitesOutcomeOf(data: Value, user: Option<Row>, existingSite: Value -> Option<Row>, storedKeys: seq<Value> -> seq<Row>): (r: SitesOutcome)
    ensures r == NoSites <==> !Truthy(data)
    ensures r == SitesUserNotFound <==> Truthy(data) && UserIdOf(user).None?
  {
    if !Truthy(data) then NoSites
    else
      match UserIdOf(user)
      case None => SitesUserNotFound
      case Some(userId) =>
        var sites := DictRows(data);
        var j := FirstSet(Raising(sites, userId));
        if j < |sites| then
          SitesRaise(SiteResults(sites[..j], userId, existingSite, storedKeys),
                     SiteFailureOf(sites[j], userId, existingSite(Get(sites[j], "siteid"))))
        else SitesProcessed(SiteResults(sites, userId, existingSite, storedKeys))
  }

  method ProcessAllSiteData(data: Value, user: Option<Row>, existingSite: Value -> Option<Row>, storedKeys: seq<Value> -> seq<Row>)
    returns (outcome: SitesOutcome)
    requires WellFormed(data)
    ensures outcome == SitesOutcomeOf(data, user, existingSite, storedKeys)
  {
    if !Truthy(data) {
      return NoSites;
    }
    match UserIdOf(user) {
      case None =>
        return SitesUserNotFound;
      case Some(userId) =>
        DictRowsUnique(data);
        var sites := DictRows(data);
        var done, failure := ProcessSites(sites, userId, existingSite, storedKeys);
        if failure.Some? {
          outcome := SitesRaise(done, failure.value);
        } else {
          assert sites[..|sites|] == sites;
          outcome := SitesProcessed(done);
        }
    }
  }

  /**
   * The message fails exactly when the payload has sites and a user, and
   * some site with a truthy id lacks `building_options` or has no options
   * or no platforms (`SiteRaises`).
   */
  lemma SitesRaiseWhen(data: Value, user: Option<Row>, existingSite: Value -> Option<Row>, storedKeys: seq<Value> -> seq<Row>)
    ensures SitesOutcomeOf(data, user, existingSite, storedKeys).SitesRaise? <==>
              Truthy(data) && UserIdOf(user).Some?
              && exists i :: 0 <= i < |DictRows(data)| && SiteRaises(DictRows(data)[i], UserIdOf(user).value)
  {
    if Truthy(data) && UserIdOf(user).Some? {
      var sites, userId := DictRows(data), UserIdOf(user).value;
      var j := FirstSet(Raising(sites, userId));
      if j < |sites| {
        assert SiteRaises(sites[j], userId);
      }
    }
  }

  /**
   * A failed message fails at the first site that raises, and that site's
   * own `sites` row write, already made, is the one it would have made had
   * its nested data not raised.
   */
  lemma SitesRaiseAt(data: Value, user: Option<Row>, existingSite: Value -> Option<Row>, storedKeys: seq<Value> -> seq<Row>)
    requires SitesOutcomeOf(data, user, existingSite, storedKeys).SitesRaise?
    ensures var out, sites, userId := SitesOutcomeOf(data, user, existingSite, storedKeys), DictRows(data), UserIdOf(user).value;
      exists j :: 0 <= j < |sites| && SiteRaises(sites[j], userId)
        && (forall i :: 0 <= i < j ==> !SiteRaises(sites[i], userId))
        && out.failure.write == SiteResultOf(sites[j], userId, existingSite(Get(sites[j], "siteid")), storedKeys).write
  {
    var sites, userId := DictRows(data), UserIdOf(user).value;
    var j := FirstSet(Raising(sites, userId));
    assert SiteRaises(sites[j], userId);
    var existing := existingSite(Get(sites[j], "siteid"));
    SiteFailureWrite(sites[j], userId, existing, storedKeys);
    assert SitesOutcomeOf(data, user, existingSite, storedKeys).failure == SiteFailureOf(sites[j], userId, existing);
  }

  /** A failing site writes its `sites` row as a site that does not fail would. */
  lemma SiteFailureWrite(site: Row, userId: Value, existing: Option<Row>, storedKeys: seq<Value> -> seq<Row>)
    ensures SiteFailureOf(site, userId, existing).write == SiteResultOf(site, userId, existing, storedKeys).write
  {
  }

  /**
   * A failed message keeps the writes made before the raise: every site with
   * a truthy id that comes before any raising site has its result in
   * `committed`.
   */
  lemma SitesRaiseCommits(data: Value, user: Option<Row>, existingSite: Value -> Option<Row>, storedKeys: seq<Value> -> seq<Row>, k: nat)
    requires SitesOutcomeOf(data, user, existingSite, storedKeys).SitesRaise?
    requires k < |DictRows(data)| && Truthy(Get(DictRows(data)[k], "siteid"))
    requires forall i :: 0 <= i <= k ==> !SiteRaises(DictRows(data)[i], UserIdOf(user).value)
    ensures var userId := UserIdOf(user).value;
      SiteResultOf(DictRows(data)[k], userId, existingSite(Get(DictRows(data)[k], "siteid")), storedKeys)
        in SitesOutcomeOf(data, user, existingSite, storedKeys).committed
  {
    var sites, userId := DictRows(data), UserIdOf(user).value;
    var j := FirstSet(Raising(sites, userId));
    assert Raising(sites, userId)[j];
    assert k < j;
    assert sites[..j][k] == sites[k];
    SiteReported(sites[..j], userId, existingSite, storedKeys, k);
  }

  /** Every site a processed message reports wrote at least one building option and one platform. */
  lemma ProcessedSitesWrite(data: Value, user: Option<Row>, existingSite: Value -> Option<Row>, storedKeys: seq<Value> -> seq<Row>, r: SiteResult)
    requires SitesOutcomeOf(data, user, existingSite, storedKeys).SitesProcessed?
    requires r in SitesOutcomeOf(data, user, existingSite, storedKeys).results
    ensures |r.nested.buildings| > 0 && |r.nested.platforms| > 0
  {
    var userId := UserIdOf(user).value;
    var sites := DictRows(data);
    ResultsPerSite(sites, userId, existingSite, storedKeys, r);
    var i :| 0 <= i < |sites| && Truthy(Get(sites[i], "siteid"))
             && r == SiteResultOf(sites[i], userId, existingSite(Get(sites[i], "siteid")), storedKeys);
    assert !Raising(sites, userId)[i];
  }
}
