/**
 * The payload-to-row converters: each turns one decoded game payload into
 * the rows of one or more database tables, by appending rows inside loops
 * over the nested lists of the payload.
 */
module DataConverter {
  import opened Wrappers
  import opened PyStrings
  import opened PyValues
  import opened Flattening
  import opened KeyedLists

  /** `v if v is not None else d`. */
  function OrElse(v: Value, d: Value): (r: Value)
    ensures r.VNone? ==> d.VNone?
    ensures !v.VNone? ==> r == v
  {
    if v.VNone? then d else v
  }

  function OrNull(v: Value): Value
  {
    OrElse(v, VStr("null"))
  }

  /** A period given as `{"timestamp": ms}`: `datetime.fromtimestamp(ms / 1000)` when both are present, else None. */
  function TimeOf(t: Value): (r: Value)
    ensures r.VTime? || r.VNone?
  {
    var ms := Field(t, "timestamp");
    if t != VNone && ms.VNum? then VTime(ms.n) else VNone
  }

  /** The entries of a row are never None. */
  predicate NoNone(row: Row)
  {
    forall i :: 0 <= i < |row| ==> !row[i].1.VNone?
  }

  // ---------------------------------------------------------------------
  // convert_world_materials_data

  function CategoriesOf(raw: Value): seq<Value>
  {
    Items(FieldOr(Field(raw, "payload"), "categories", VList([])))
  }

  function CategoryRow(c: Value): Row
  {
    [("id", OrNull(Field(c, "id"))), ("name", OrNull(Field(c, "name")))]
  }

  function MaterialsIn(c: Value): seq<Value>
  {
    Items(FieldOr(c, "materials", VList([])))
  }

  function MaterialRow(c: Value, m: Value): Row
  {
    [ ("materialid", OrNull(Field(m, "id"))),
      ("name", OrNull(Field(m, "name"))),
      ("ticker", OrNull(Field(m, "ticker"))),
      ("category", OrNull(Field(c, "id"))),
      ("weight", OrElse(Field(m, "weight"), VNum(0.0))),
      ("volume", OrElse(Field(m, "volume"), VNum(0.0))),
      ("resource", OrElse(Field(m, "resource"), VBool(false))) ]
  }

  /** The material rows of one category, in the category's order. */
  function MaterialRows(c: Value): seq<Row>
  {
    seq(|MaterialsIn(c)|, j requires 0 <= j < |MaterialsIn(c)| => MaterialRow(c, MaterialsIn(c)[j]))
  }

  /** `convert_world_materials_data`: the category rows and the material rows. */
  method ConvertWorldMaterials(raw: Value) returns (categories: seq<Row>, materials: seq<Row>)
    ensures categories == Map(CategoriesOf(raw), CategoryRow)
    ensures materials == Flatten(Map(CategoriesOf(raw), MaterialRows))
  {
    var cats := CategoriesOf(raw);
    categories, materials := [], [];
    for i := 0 to |cats|
      invariant categories == Map(cats[..i], CategoryRow)
      invariant materials == Flatten(Map(cats[..i], MaterialRows))
    {
      var c := cats[i];
      MapStep(cats, CategoryRow, i);
      categories := categories + [CategoryRow(c)];
      var ms := MaterialsIn(c);
      ghost var before := materials;
      for j := 0 to |ms|
        invariant materials == before + MaterialRows(c)[..j]
      {
        AppendStep(before, MaterialRows(c), j);
        materials := materials + [MaterialRow(c, ms[j])];
      }
      TakeAll(MaterialRows(c));
      FlattenStep(cats, MaterialRows, i);
    }
    TakeAll(cats);
  }

  /** No value in a category or material row is None: a missing one becomes 'null', 0.0 or False. */
  lemma WorldMaterialDefaults(c: Value, m: Value)
    ensures NoNone(CategoryRow(c)) && NoNone(MaterialRow(c, m))
  {
    var row := MaterialRow(c, m);
    assert !row[0].1.VNone? && !row[1].1.VNone? && !row[2].1.VNone? && !row[3].1.VNone?;
    assert !row[4].1.VNone? && !row[5].1.VNone? && !row[6].1.VNone?;
  }

  /** A material row names its category by the category row's id. */
  lemma MaterialCategory(c: Value, m: Value)
    ensures Get(MaterialRow(c, m), "category") == OrNull(Field(c, "id")) == Get(CategoryRow(c), "id")
  {
    var row := MaterialRow(c, m);
    assert row == row[..3] + row[3..];
    assert !HasKey(row[..3], "category");
    GetAfter(row[..3], row[3..], "category");
  }

  /**
   * One material row per material, category after category: the `j`-th
   * material of the `i`-th category is at `Offset + j`, and its row names
   * that category's id.
   */
  lemma MaterialsInCategoryOrder(raw: Value, i: nat, j: nat)
    requires i < |CategoriesOf(raw)| && j < |MaterialsIn(CategoriesOf(raw)[i])|
    ensures var groups := Map(CategoriesOf(raw), MaterialRows);
      var c := CategoriesOf(raw)[i];
      Offset(groups, i) + j < |Flatten(groups)|
      && Flatten(groups)[Offset(groups, i) + j] == MaterialRow(c, MaterialsIn(c)[j])
      && Get(Flatten(groups)[Offset(groups, i) + j], "category") == OrNull(Field(c, "id"))
  {
    FlattenMapAt(CategoriesOf(raw), MaterialRows, i, j);
    MaterialCategory(CategoriesOf(raw)[i], MaterialsIn(CategoriesOf(raw)[i])[j]);
  }

  /** As many material rows as there are materials in all categories. */
  lemma MaterialCount(raw: Value)
    ensures |Flatten(Map(CategoriesOf(raw), MaterialRows))| == SumLengths(Map(CategoriesOf(raw), MaterialRows))
  {
    FlattenLength(Map(CategoriesOf(raw), MaterialRows));
  }

  // ---------------------------------------------------------------------
  // convert_storages_data

  function StoresOf(raw: Value): seq<Value>
  {
    Items(Field(Field(raw, "payload"), "stores"))
  }

  function StorageRow(rec: Value): Row
  {
    [ ("storageid", Field(rec, "id")),
      ("addressableid", Field(rec, "addressableId")),
      ("name", OrNull(Field(rec, "name"))),
      ("weightload", Field(rec, "weightLoad")),
      ("weightcapacity", Field(rec, "weightCapacity")),
      ("volumeload", Field(rec, "volumeLoad")),
      ("volumecapacity", Field(rec, "volumeCapacity")),
      ("fixed", Field(rec, "fixed")),
      ("tradestore", Field(rec, "tradeStore")),
      ("rank", Field(rec, "rank")),
      ("locked", Field(rec, "locked")),
      ("type", Field(rec, "type")) ]
  }

  /** An item is kept unless its type is 'BLOCKED' or it has no quantity. */
  predicate KeptItem(item: Value)
  {
    Field(item, "type") != VStr("BLOCKED") && !Field(item, "quantity").VNone?
  }

  /** The row of one kept item of the store `rec`. */
  function StorageItemRow(rec: Value, item: Value): Row
  {
    var quantity := Field(item, "quantity");
    var currency := FieldOr(quantity, "value", VDict([]));
    [ ("storageid", Field(rec, "id")),
      ("materialid", Field(item, "id")),
      ("quantity", Field(quantity, "amount")),
      ("totalweight", Field(item, "weight")),
      ("totalvolume", Field(item, "volume")),
      ("currencyamount", Field(currency, "amount")),
      ("currencytype", Field(currency, "currency")) ]
  }

  function KeptItems(items: seq<Value>): seq<Value>
  {
    Filter(items, KeptItem)
  }

  function StorageItemsIn(rec: Value): seq<Value>
  {
    Items(FieldOr(rec, "items", VList([])))
  }

  /** The rows of the items `items` of the store `rec`, in order. */
  function ItemRowsFor(rec: Value, items: seq<Value>): (rows: seq<Row>)
    ensures |rows| == |items| && forall k :: 0 <= k < |items| ==> rows[k] == StorageItemRow(rec, items[k])
  {
    if items == [] then [] else ItemRowsFor(rec, items[..|items| - 1]) + [StorageItemRow(rec, items[|items| - 1])]
  }

  lemma ItemRowsSnoc(rec: Value, items: seq<Value>, x: Value)
    ensures ItemRowsFor(rec, items + [x]) == ItemRowsFor(rec, items) + [StorageItemRow(rec, x)]
  {
    assert (items + [x])[..|items|] == items;
  }

  function DictList(rows: seq<Row>): Value
  {
    VList(seq(|rows|, k requires 0 <= k < |rows| => VDict(rows[k])))
  }

  /** The storage row with its kept item rows under "storage_items", a key it did not have. */
  function StorageRecord(rec: Value): Row
  {
    StorageRow(rec) + [("storage_items", DictList(ItemRowsFor(rec, KeptItems(StorageItemsIn(rec)))))]
  }

  /** `convert_storages_data`: one storage record per store, in order. */
  method ConvertStorages(raw: Value) returns (storages: seq<Row>)
    ensures storages == Map(StoresOf(raw), StorageRecord)
  {
    var stores := StoresOf(raw);
    storages := [];
    for i := 0 to |stores|
      invariant storages == Map(stores[..i], StorageRecord)
    {
      var rec := stores[i];
      var items := StorageItemsIn(rec);
      var rows: seq<Row> := [];
      for j := 0 to |items|
        invariant rows == ItemRowsFor(rec, KeptItems(items[..j]))
      {
        var item := items[j];
        FilterStep(items, KeptItem, j);
        if Field(item, "type") == VStr("BLOCKED") {
          assert !KeptItem(item);
          continue;
        }
        if Field(item, "quantity").VNone? {
          assert !KeptItem(item);
          continue;
        }
        assert KeptItem(item);
        ItemRowsSnoc(rec, KeptItems(items[..j]), item);
        rows := rows + [StorageItemRow(rec, item)];
      }
      TakeAll(items);
      MapStep(stores, StorageRecord, i);
      storages := storages + [StorageRow(rec) + [("storage_items", DictList(rows))]];
    }
    TakeAll(stores);
  }

  /** Every item a store keeps is one of its items, not 'BLOCKED' and with a quantity. */
  lemma KeptItemsPass(rec: Value)
    ensures var items, kept := StorageItemsIn(rec), KeptItems(StorageItemsIn(rec));
      forall k :: 0 <= k < |kept| ==>
        kept[k] in items && Field(kept[k], "type") != VStr("BLOCKED") && !Field(kept[k], "quantity").VNone?
  {
    FilterSound(StorageItemsIn(rec), KeptItem);
  }

  /** A store drops none of its items that are not 'BLOCKED' and have a quantity. */
  lemma PassingItemsKept(rec: Value)
    ensures var items := StorageItemsIn(rec);
      forall k :: 0 <= k < |items| && Field(items[k], "type") != VStr("BLOCKED") && !Field(items[k], "quantity").VNone? ==>
        items[k] in KeptItems(items)
  {
    FilterComplete(StorageItemsIn(rec), KeptItem);
  }

  /** Each item row of a store carries the store's id. */
  lemma ItemRowIds(rec: Value)
    ensures var rows := ItemRowsFor(rec, KeptItems(StorageItemsIn(rec)));
      forall k :: 0 <= k < |rows| ==> Get(rows[k], "storageid") == Field(rec, "id")
  {
  }

  /** The storage record keeps the store's id and adds the item rows under a key of its own. */
  lemma StorageRecordId(rec: Value)
    ensures Get(StorageRecord(rec), "storageid") == Field(rec, "id")
    ensures !HasKey(StorageRow(rec), "storage_items")
  {
    StorageRowNoItems(rec);
    GetAppend(StorageRow(rec), [("storage_items", DictList(ItemRowsFor(rec, KeptItems(StorageItemsIn(rec)))))], "storageid");
  }

  lemma StorageRowNoItems(rec: Value)
    ensures !HasKey(StorageRow(rec), "storage_items")
  {
  }

  // ---------------------------------------------------------------------
  // convert_sectors_data

  function SectorsOf(raw: Value): seq<Value>
  {
    Items(FieldOr(Field(raw, "payload"), "sectors", VList([])))
  }

  function SectorRow(sector: Value): Row
  {
    var hex := FieldOr(sector, "hex", VDict([]));
    [ ("externalsectorid", Field(sector, "id")),
      ("name", Field(sector, "name")),
      ("hexq", Field(hex, "q")),
      ("hexr", Field(hex, "r")),
      ("hexs", Field(hex, "s")),
      ("size", Field(sector, "size")) ]
  }

  function SubsectorsIn(sector: Value): seq<Value>
  {
    Items(FieldOr(sector, "subsectors", VList([])))
  }

  function VerticesIn(subsector: Value): seq<Value>
  {
    Items(FieldOr(subsector, "vertices", VList([])))
  }

  function SubsectorRow(sector: Value, subsector: Value): Row
  {
    [("externalsubsectorid", Field(subsector, "id")), ("externalsectorid", Field(sector, "id"))]
  }

  /** The subsector rows of one sector. */
  function SubsectorRows(sector: Value): seq<Row>
  {
    var subs := SubsectorsIn(sector);
    seq(|subs|, j requires 0 <= j < |subs| => SubsectorRow(sector, subs[j]))
  }

  /** The row of the vertex at position `index` of a subsector's vertex list. */
  function VertexRow(subsector: Value, index: nat, vertex: Value): Row
  {
    [ ("externalsubsectorid", Field(subsector, "id")),
      ("index", VNum(index as real)),
      ("x", Field(vertex, "x")),
      ("y", Field(vertex, "y")),
      ("z", Field(vertex, "z")) ]
  }

  /** `enumerate(subsector.get('vertices', []))`, one row per vertex. */
  function SubsectorVertexRows(subsector: Value): seq<Row>
  {
    var vs := VerticesIn(subsector);
    seq(|vs|, k requires 0 <= k < |vs| => VertexRow(subsector, k, vs[k]))
  }

  /** The vertex rows of all subsectors of one sector. */
  function SectorVertexRows(sector: Value): seq<Row>
  {
    Flatten(Map(SubsectorsIn(sector), SubsectorVertexRows))
  }

  /** The inner loop `for vertex_index, vertex in enumerate(...)`: appends one row per vertex. */
  method AppendVertexRows(prior: seq<Row>, subsector: Value) returns (vertices: seq<Row>)
    ensures vertices == prior + SubsectorVertexRows(subsector)
  {
    var vs := VerticesIn(subsector);
    vertices := prior;
    for k := 0 to |vs|
      invariant vertices == prior + SubsectorVertexRows(subsector)[..k]
    {
      AppendStep(prior, SubsectorVertexRows(subsector), k);
      vertices := vertices + [VertexRow(subsector, k, vs[k])];
    }
    TakeAll(SubsectorVertexRows(subsector));
  }

  /** `convert_sectors_data`: the sector, subsector and vertex rows. */
  method ConvertSectors(raw: Value) returns (sectors: seq<Row>, subsectors: seq<Row>, vertices: seq<Row>)
    ensures sectors == Map(SectorsOf(raw), SectorRow)
    ensures subsectors == Flatten(Map(SectorsOf(raw), SubsectorRows))
    ensures vertices == Flatten(Map(SectorsOf(raw), SectorVertexRows))
  {
    var all := SectorsOf(raw);
    sectors, subsectors, vertices := [], [], [];
    for i := 0 to |all|
      invariant sectors == Map(all[..i], SectorRow)
      invariant subsectors == Flatten(Map(all[..i], SubsectorRows))
      invariant vertices == Flatten(Map(all[..i], SectorVertexRows))
    {
      var sector := all[i];
      MapStep(all, SectorRow, i);
      sectors := sectors + [SectorRow(sector)];
      var subs := SubsectorsIn(sector);
      ghost var subsBefore, verticesBefore := subsectors, vertices;
      for j := 0 to |subs|
        invariant subsectors == subsBefore + SubsectorRows(sector)[..j]
        invariant vertices == verticesBefore + Flatten(Map(subs[..j], SubsectorVertexRows))
      {
        var subsector := subs[j];
        AppendStep(subsBefore, SubsectorRows(sector), j);
        subsectors := subsectors + [SubsectorRow(sector, subsector)];
        vertices := AppendVertexRows(vertices, subsector);
        FlattenStep(subs, SubsectorVertexRows, j);
        AppendAssoc(verticesBefore, Flatten(Map(subs[..j], SubsectorVertexRows)), SubsectorVertexRows(subsector));
      }
      TakeAll(SubsectorRows(sector));
      TakeAll(subs);
      FlattenStep(all, SubsectorRows, i);
      FlattenStep(all, SectorVertexRows, i);
    }
    TakeAll(all);
  }

  /** A subsector row names its own id and its parent sector's id. */
  lemma SubsectorParent(sector: Value, subsector: Value)
    ensures Get(SubsectorRow(sector, subsector), "externalsectorid") == Field(sector, "id")
    ensures Get(SubsectorRow(sector, subsector), "externalsubsectorid") == Field(subsector, "id")
  {
    var row := SubsectorRow(sector, subsector);
    assert row[0].0 != row[1].0;
    GetFirst(row, 1);
  }

  /** The `j`-th subsector of the `i`-th sector has its row at `Offset + j`, naming that sector. */
  lemma SubsectorsInSectorOrder(raw: Value, i: nat, j: nat)
    requires i < |SectorsOf(raw)| && j < |SubsectorsIn(SectorsOf(raw)[i])|
    ensures var groups := Map(SectorsOf(raw), SubsectorRows);
      var sector := SectorsOf(raw)[i];
      Offset(groups, i) + j < |Flatten(groups)|
      && Flatten(groups)[Offset(groups, i) + j] == SubsectorRow(sector, SubsectorsIn(sector)[j])
      && Get(Flatten(groups)[Offset(groups, i) + j], "externalsectorid") == Field(sector, "id")
  {
    FlattenMapAt(SectorsOf(raw), SubsectorRows, i, j);
    SubsectorParent(SectorsOf(raw)[i], SubsectorsIn(SectorsOf(raw)[i])[j]);
  }

  lemma VertexRowFields(subsector: Value, index: nat, vertex: Value)
    ensures Get(VertexRow(subsector, index, vertex), "index") == VNum(index as real)
    ensures Get(VertexRow(subsector, index, vertex), "externalsubsectorid") == Field(subsector, "id")
  {
    var row := VertexRow(subsector, index, vertex);
    assert row[0].0 != row[1].0;
    GetFirst(row, 1);
  }

  /** A vertex row's `index` is the vertex's 0-based position, and the row names its subsector. */
  lemma VertexIndex(subsector: Value, k: nat)
    requires k < |VerticesIn(subsector)|
    ensures Get(SubsectorVertexRows(subsector)[k], "index") == VNum(k as real)
    ensures Get(SubsectorVertexRows(subsector)[k], "externalsubsectorid") == Field(subsector, "id")
  {
    VertexRowFields(subsector, k, VerticesIn(subsector)[k]);
  }

  /**
   * The vertex rows of a sector are those of its subsectors in turn: the
   * `k`-th vertex of its `j`-th subsector is at `Offset + k`.
   */
  lemma VerticesInSubsectorOrder(sector: Value, j: nat, k: nat)
    requires j < |SubsectorsIn(sector)| && k < |VerticesIn(SubsectorsIn(sector)[j])|
    ensures var groups := Map(SubsectorsIn(sector), SubsectorVertexRows);
      Offset(groups, j) + k < |SectorVertexRows(sector)|
      && SectorVertexRows(sector)[Offset(groups, j) + k] == SubsectorVertexRows(SubsectorsIn(sector)[j])[k]
  {
    FlattenMapAt(SubsectorsIn(sector), SubsectorVertexRows, j, k);
  }

  // ---------------------------------------------------------------------
  // convert_systems_data

  function StarsOf(raw: Value): seq<Value>
  {
    Items(FieldOr(FieldOr(raw, "payload", VDict([])), "stars", VList([])))
  }

  function ConnectionsOf(star: Value): seq<Value>
  {
    Items(FieldOr(star, "connections", VList([])))
  }

  function ConnectionRow(star: Value, connection: Value): Row
  {
    [("systemiddestination", connection), ("systemidorigin", Field(star, "systemId"))]
  }

  function ConnectionRows(star: Value): seq<Row>
  {
    var cs := ConnectionsOf(star);
    seq(|cs|, j requires 0 <= j < |cs| => ConnectionRow(star, cs[j]))
  }

  function AddressLines(v: Value): seq<Value>
  {
    Items(FieldOr(FieldOr(v, "address", VDict([])), "lines", VList([])))
  }

  /** The naturalId of the entity on the first address line; None when there are no lines. */
  function NaturalIdOf(star: Value): Value
  {
    var lines := AddressLines(star);
    if |lines| > 0 then Field(FieldOr(lines[0], "entity", VDict([])), "naturalId") else VNone
  }

  function SystemRow(star: Value): Row
  {
    var position := FieldOr(star, "position", VDict([]));
    [ ("systemid", Field(star, "systemId")),
      ("name", Field(star, "name")),
      ("naturalid", NaturalIdOf(star)),
      ("type", Field(star, "type")),
      ("positionx", Field(position, "x")),
      ("positiony", Field(position, "y")),
      ("positionz", Field(position, "z")),
      ("sectorid", Field(star, "sectorId")),
      ("subsectorid", Field(star, "subSectorId")) ]
  }

  /** `convert_systems_data`: one system row per star, and its connection rows. */
  method ConvertSystems(raw: Value) returns (systems: seq<Row>, connections: seq<Row>)
    ensures systems == Map(StarsOf(raw), SystemRow)
    ensures connections == Flatten(Map(StarsOf(raw), ConnectionRows))
  {
    var stars := StarsOf(raw);
    systems, connections := [], [];
    for i := 0 to |stars|
      invariant systems == Map(stars[..i], SystemRow)
      invariant connections == Flatten(Map(stars[..i], ConnectionRows))
    {
      var star := stars[i];
      var cs := ConnectionsOf(star);
      ghost var before := connections;
      for j := 0 to |cs|
        invariant connections == before + ConnectionRows(star)[..j]
      {
        AppendStep(before, ConnectionRows(star), j);
        connections := connections + [ConnectionRow(star, cs[j])];
      }
      TakeAll(ConnectionRows(star));
      FlattenStep(stars, ConnectionRows, i);
      var lines := AddressLines(star);
      var naturalId := VNone;
      if |lines| > 0 {
        naturalId := Field(FieldOr(lines[0], "entity", VDict([])), "naturalId");
      }
      MapStep(stars, SystemRow, i);
      var position := FieldOr(star, "position", VDict([]));
      systems := systems + [[ ("systemid", Field(star, "systemId")),
                              ("name", Field(star, "name")),
                              ("naturalid", naturalId),
                              ("type", Field(star, "type")),
                              ("positionx", Field(position, "x")),
                              ("positiony", Field(position, "y")),
                              ("positionz", Field(position, "z")),
                              ("sectorid", Field(star, "sectorId")),
                              ("subsectorid", Field(star, "subSectorId")) ]];
    }
    TakeAll(stars);
  }

  /** A connection row goes from the star's systemId to the listed system. */
  lemma ConnectionEnds(star: Value, j: nat)
    requires j < |ConnectionsOf(star)|
    ensures Get(ConnectionRows(star)[j], "systemidorigin") == Field(star, "systemId")
    ensures Get(ConnectionRows(star)[j], "systemiddestination") == ConnectionsOf(star)[j]
  {
    var row := ConnectionRow(star, ConnectionsOf(star)[j]);
    assert row[0].0 != row[1].0;
    GetFirst(row, 1);
  }

  /** One connection row per listed connection of each star, star after star. */
  lemma ConnectionsInStarOrder(raw: Value, i: nat, j: nat)
    requires i < |StarsOf(raw)| && j < |ConnectionsOf(StarsOf(raw)[i])|
    ensures var groups := Map(StarsOf(raw), ConnectionRows);
      Offset(groups, i) + j < |Flatten(groups)|
      && Flatten(groups)[Offset(groups, i) + j] == ConnectionRow(StarsOf(raw)[i], ConnectionsOf(StarsOf(raw)[i])[j])
      && Get(Flatten(groups)[Offset(groups, i) + j], "systemidorigin") == Field(StarsOf(raw)[i], "systemId")
  {
    FlattenMapAt(StarsOf(raw), ConnectionRows, i, j);
    ConnectionEnds(StarsOf(raw)[i], j);
  }

  /** A system's naturalid is the first address line's entity naturalId, or None with no lines. */
  lemma SystemNaturalId(star: Value)
    ensures var lines := AddressLines(star);
      Get(SystemRow(star), "naturalid") ==
        if lines == [] then VNone else Field(FieldOr(lines[0], "entity", VDict([])), "naturalId")
  {
    var row := SystemRow(star);
    assert row[0].0 != "naturalid" && row[1].0 != "naturalid";
    GetFirst(row, 2);
  }

  // ---------------------------------------------------------------------
  // convert_accounting_data

  function AccountItemsOf(raw: Value): seq<Value>
  {
    Items(Field(Field(raw, "payload"), "items"))
  }

  predicate IsLiquid(item: Value)
  {
    Field(item, "accountCategory") == VStr("LIQUID_ASSETS")
  }

  function AccountRow(item: Value): Row
  {
    [ ("category", Field(item, "accountCategory")),
      ("type", Field(item, "accountType")),
      ("number", Field(item, "account")),
      ("bookbalanceamount", Field(Field(item, "bookBalance"), "amount")),
      ("balanceamount", Field(Field(item, "balance"), "amount")) ]
  }

  /** `convert_accounting_data`: a row for each liquid-asset account, in order. */
  method ConvertAccounting(raw: Value) returns (rows: seq<Row>)
    ensures rows == Map(Filter(AccountItemsOf(raw), IsLiquid), AccountRow)
  {
    var items := AccountItemsOf(raw);
    rows := [];
    for i := 0 to |items|
      invariant rows == Map(Filter(items[..i], IsLiquid), AccountRow)
    {
      var item := items[i];
      FilterStep(items, IsLiquid, i);
      if Field(item, "accountCategory") == VStr("LIQUID_ASSETS") {
        MapSnoc(Filter(items[..i], IsLiquid), item, AccountRow);
        rows := rows + [AccountRow(item)];
      }
    }
    TakeAll(items);
  }

  /** Every account row comes from a liquid-asset item and says so. */
  lemma AccountsAreLiquid(raw: Value)
    ensures var kept := Filter(AccountItemsOf(raw), IsLiquid);
      forall k :: 0 <= k < |kept| ==> kept[k] in AccountItemsOf(raw) && Field(kept[k], "accountCategory") == VStr("LIQUID_ASSETS")
  {
    FilterSound(AccountItemsOf(raw), IsLiquid);
  }

  /** No liquid-asset item is dropped. */
  lemma LiquidAccountsKept(raw: Value)
    ensures var items := AccountItemsOf(raw);
      forall k :: 0 <= k < |items| && Field(items[k], "accountCategory") == VStr("LIQUID_ASSETS") ==>
        items[k] in Filter(items, IsLiquid)
  {
    FilterComplete(AccountItemsOf(raw), IsLiquid);
  }

  /**
   * The accounts keep their order: the row of the liquid item at position
   * `i` follows the rows of the liquid items before it, and precedes that of
   * any later liquid item.
   */
  lemma AccountOrder(raw: Value, i: nat, j: nat)
    requires i < j < |AccountItemsOf(raw)| && IsLiquid(AccountItemsOf(raw)[i]) && IsLiquid(AccountItemsOf(raw)[j])
    ensures var items := AccountItemsOf(raw);
      var rows := Map(Filter(items, IsLiquid), AccountRow);
      var pi, pj := |Filter(items[..i], IsLiquid)|, |Filter(items[..j], IsLiquid)|;
      pi < pj < |rows| && rows[pi] == AccountRow(items[i]) && rows[pj] == AccountRow(items[j])
  {
    var items := AccountItemsOf(raw);
    FilterPosition(items, IsLiquid, i);
    FilterPosition(items, IsLiquid, j);
    FilterMonotone(items, IsLiquid, i, j);
  }

  // ---------------------------------------------------------------------
  // convert_ships_data (the shape dispatch only)

  /**
   * The ship records `convert_ships_data` goes on to convert: the 'ships'
   * list of a dict that has one, a dict with an 'id' as a one-record list,
   * anything else as it is; None when that is empty or falsy.
   */
  function ShipRecords(raw: Value): (r: Option<Value>)
    ensures r.Some? ==> Truthy(r.value)
  {
    var payload := Field(raw, "payload");
    var records :=
      if payload.VDict? && HasKey(payload.entries, "ships") then Get(payload.entries, "ships")
      else if payload.VDict? && HasKey(payload.entries, "id") then VList([payload])
      else payload;
    if Truthy(records) then Some(records) else None
  }

  /** The three shapes, and when there is nothing to process. */
  lemma ShipShapes(raw: Value)
    ensures var payload := Field(raw, "payload");
      (payload.VDict? && HasKey(payload.entries, "ships") ==>
         ShipRecords(raw) == if Truthy(Get(payload.entries, "ships")) then Some(Get(payload.entries, "ships")) else None)
      && (payload.VDict? && !HasKey(payload.entries, "ships") && HasKey(payload.entries, "id") ==>
            ShipRecords(raw) == Some(VList([payload])))
      && (payload.VList? ==> ShipRecords(raw) == if payload.items == [] then None else Some(payload))
      && (payload.VNone? ==> ShipRecords(raw) == None)
  {
  }

  // ---------------------------------------------------------------------
  // convert_sites_data

  /** The 'sites' list when the payload has one, else the payload itself when it has a siteId, else nothing. */
  function SiteRecordsOf(raw: Value): seq<Value>
  {
    var payload := Field(raw, "payload");
    if !Field(payload, "sites").VNone? then Items(Field(payload, "sites"))
    else if !Field(payload, "siteId").VNone? then [payload]
    else []
  }

  /** `id.replace('\x00', '')`. */
  function CleanId(id: Value): (r: Value)
    ensures r.VStr? || r.VNone?
  {
    if id.VStr? then VStr(RemoveChar(id.s, '\0')) else VNone
  }

  /** A cleaned id holds no NUL character, and an id without one is kept as it is. */
  lemma CleanIdSpec(id: Value)
    ensures CleanId(id).VStr? ==> '\0' !in CleanId(id).s
    ensures id.VStr? && '\0' !in id.s ==> CleanId(id) == id
    ensures CleanId(CleanId(id)) == CleanId(id)
  {
    if id.VStr? {
      if '\0' !in id.s {
        RemoveAbsentChar(id.s, '\0');
      }
      RemoveAbsentChar(RemoveChar(id.s, '\0'), '\0');
    }
  }

  function OptionMaterialRow(option: Value, material: Value): Row
  {
    [ ("buildingid", Field(option, "id")),
      ("materialid", Field(Field(material, "material"), "id")),
      ("amount", Field(material, "amount")) ]
  }

  function OptionMaterials(option: Value): seq<Value>
  {
    Items(Field(Field(option, "materials"), "quantities"))
  }

  function OptionMaterialRows(option: Value): seq<Row>
  {
    var ms := OptionMaterials(option);
    seq(|ms|, j requires 0 <= j < |ms| => OptionMaterialRow(option, ms[j]))
  }

  function WorkforceRow(option: Value, capacity: Value): Row
  {
    [ ("buildingid", Field(option, "id")),
      ("workforcelevel", Field(capacity, "level")),
      ("capacity", Field(capacity, "capacity")) ]
  }

  function OptionWorkforces(option: Value): seq<Value>
  {
    Items(Field(option, "workforceCapacities"))
  }

  function WorkforceRows(option: Value): seq<Row>
  {
    var ws := OptionWorkforces(option);
    seq(|ws|, j requires 0 <= j < |ws| => WorkforceRow(option, ws[j]))
  }

  function BuildOptionRow(option: Value): Row
  {
    [ ("buildingid", Field(option, "id")),
      ("name", Field(option, "name")),
      ("ticker", Field(option, "ticker")),
      ("type", Field(option, "type")),
      ("area", Field(option, "area")),
      ("expertisecategory", Field(option, "expertiseCategory")),
      ("needsfertilesoil", Field(option, "needsFertileSoil")),
      ("materials", DictList(OptionMaterialRows(option))),
      ("workforcecapacities", DictList(WorkforceRows(option))) ]
  }

  function PlatformMaterialRow(platform: Value, material: Value, kind: string): Row
  {
    [ ("platformid", CleanId(Field(platform, "id"))),
      ("materialid", Field(Field(material, "material"), "id")),
      ("amount", Field(material, "amount")),
      ("materialtype", VStr(kind)) ]
  }

  function PlatformMaterials(platform: Value, key: string): seq<Value>
  {
    Items(Field(platform, key))
  }

  /** The material rows of one of a platform's material lists, tagged with `kind`. */
  function PlatformMaterialRows(platform: Value, key: string, kind: string): seq<Row>
  {
    var ms := PlatformMaterials(platform, key);
    seq(|ms|, j requires 0 <= j < |ms| => PlatformMaterialRow(platform, ms[j], kind))
  }

  function PlatformRow(platform: Value): Row
  {
    [ ("platformid", CleanId(Field(platform, "id"))),
      ("siteid", Field(platform, "siteId")),
      ("creationtime", TimeOf(Field(platform, "creationTime"))),
      ("bookvalueamount", Field(Field(platform, "bookValue"), "amount")),
      ("bookvaluecurrency", Field(Field(platform, "bookValue"), "currency")),
      ("area", Field(platform, "area")),
      ("condition", Field(platform, "condition")),
      ("buildingid", Field(Field(platform, "module"), "reactorId")),
      ("lastrepair", TimeOf(Field(platform, "lastRepair"))),
      ("reclaimable_materials", DictList(PlatformMaterialRows(platform, "reclaimableMaterials", "reclaimable"))),
      ("repair_materials", DictList(PlatformMaterialRows(platform, "repairMaterials", "repair"))) ]
  }

  function BuildOptionsOf(site: Value): seq<Value>
  {
    Items(Field(Field(site, "buildOptions"), "options"))
  }

  function PlatformsOf(site: Value): seq<Value>
  {
    Items(Field(site, "platforms"))
  }

  /** The entity id on address line `n`. */
  function LineEntityId(site: Value, n: nat): Value
  {
    var lines := Items(Field(Field(site, "address"), "lines"));
    if n < |lines| then Field(Field(lines[n], "entity"), "id") else VNone
  }

  function OptionId(option: Value): Value
  {
    Field(option, "id")
  }

  function SiteRow(site: Value): Row
  {
    [ ("siteid", Field(site, "siteId")),
      ("addresssystemid", LineEntityId(site, 0)),
      ("addressplanetid", LineEntityId(site, 1)),
      ("foundedtimestamp", TimeOf(Field(site, "founded"))),
      ("area", Field(site, "area")),
      ("investedpermits", Field(site, "investedPermits")),
      ("maximumpermits", Field(site, "maximumPermits")),
      ("buildingoptions", VList(Map(BuildOptionsOf(site), OptionId))),
      ("building_options", DictList(Map(BuildOptionsOf(site), BuildOptionRow))),
      ("platforms", DictList(Map(PlatformsOf(site), PlatformRow))) ]
  }

  /** The loop over a build option's material quantities. */
  method ConvertOptionMaterials(option: Value) returns (rows: seq<Row>)
    ensures rows == OptionMaterialRows(option)
  {
    var ms := OptionMaterials(option);
    rows := [];
    for j := 0 to |ms|
      invariant rows == OptionMaterialRows(option)[..j]
    {
      var row := OptionMaterialRow(option, ms[j]);
      Extend(rows, OptionMaterialRows(option), j, row);
      rows := rows + [row];
    }
    TakeAll(OptionMaterialRows(option));
  }

  /** The loop over a build option's workforce capacities. */
  method ConvertWorkforces(option: Value) returns (rows: seq<Row>)
    ensures rows == WorkforceRows(option)
  {
    var ws := OptionWorkforces(option);
    rows := [];
    for j := 0 to |ws|
      invariant rows == WorkforceRows(option)[..j]
    {
      var row := WorkforceRow(option, ws[j]);
      Extend(rows, WorkforceRows(option), j, row);
      rows := rows + [row];
    }
    TakeAll(WorkforceRows(option));
  }

  method ConvertBuildOption(option: Value) returns (row: Row)
    ensures row == BuildOptionRow(option)
  {
    var materials := ConvertOptionMaterials(option);
    var capacities := ConvertWorkforces(option);
    row := [ ("buildingid", Field(option, "id")),
             ("name", Field(option, "name")),
             ("ticker", Field(option, "ticker")),
             ("type", Field(option, "type")),
             ("area", Field(option, "area")),
             ("expertisecategory", Field(option, "expertiseCategory")),
             ("needsfertilesoil", Field(option, "needsFertileSoil")),
             ("materials", DictList(materials)),
             ("workforcecapacities", DictList(capacities)) ];
  }

  /** The loop over one of a platform's material lists. */
  method ConvertPlatformMaterials(platform: Value, key: string, kind: string) returns (rows: seq<Row>)
    ensures rows == PlatformMaterialRows(platform, key, kind)
  {
    var ms := PlatformMaterials(platform, key);
    rows := [];
    for j := 0 to |ms|
      invariant rows == PlatformMaterialRows(platform, key, kind)[..j]
    {
      var row := PlatformMaterialRow(platform, ms[j], kind);
      Extend(rows, PlatformMaterialRows(platform, key, kind), j, row);
      rows := rows + [row];
    }
    TakeAll(PlatformMaterialRows(platform, key, kind));
  }

  method ConvertPlatform(platform: Value) returns (row: Row)
    ensures row == PlatformRow(platform)
  {
    var reclaimable := ConvertPlatformMaterials(platform, "reclaimableMaterials", "reclaimable");
    var repair := ConvertPlatformMaterials(platform, "repairMaterials", "repair");
    var creationTime := Field(platform, "creationTime");
    var created := VNone;
    if creationTime != VNone && Field(creationTime, "timestamp").VNum? {
      created := VTime(Field(creationTime, "timestamp").n);
    }
    var lastRepair := Field(platform, "lastRepair");
    var repaired := VNone;
    if lastRepair != VNone && Field(lastRepair, "timestamp").VNum? {
      repaired := VTime(Field(lastRepair, "timestamp").n);
    }
    row := [ ("platformid", CleanId(Field(platform, "id"))),
             ("siteid", Field(platform, "siteId")),
             ("creationtime", created),
             ("bookvalueamount", Field(Field(platform, "bookValue"), "amount")),
             ("bookvaluecurrency", Field(Field(platform, "bookValue"), "currency")),
             ("area", Field(platform, "area")),
             ("condition", Field(platform, "condition")),
             ("buildingid", Field(Field(platform, "module"), "reactorId")),
             ("lastrepair", repaired),
             ("reclaimable_materials", DictList(reclaimable)),
             ("repair_materials", DictList(repair)) ];
  }

  /** The loop over a site's build options: their rows and their ids. */
  method ConvertSiteOptions(site: Value) returns (optionRows: seq<Row>, optionIds: seq<Value>)
    ensures optionRows == Map(BuildOptionsOf(site), BuildOptionRow)
    ensures optionIds == Map(BuildOptionsOf(site), OptionId)
  {
    var options := BuildOptionsOf(site);
    optionRows, optionIds := [], [];
    for j := 0 to |options|
      invariant optionRows == Map(options[..j], BuildOptionRow)
      invariant optionIds == Map(options[..j], OptionId)
    {
      var row := ConvertBuildOption(options[j]);
      MapStep(options, BuildOptionRow, j);
      MapStep(options, OptionId, j);
      optionIds := optionIds + [Field(options[j], "id")];
      optionRows := optionRows + [row];
    }
    TakeAll(options);
  }

  /** The loop over a site's platforms. */
  method ConvertSitePlatforms(site: Value) returns (platformRows: seq<Row>)
    ensures platformRows == Map(PlatformsOf(site), PlatformRow)
  {
    var platforms := PlatformsOf(site);
    platformRows := [];
    for j := 0 to |platforms|
      invariant platformRows == Map(platforms[..j], PlatformRow)
    {
      var row := ConvertPlatform(platforms[j]);
      MapStep(platforms, PlatformRow, j);
      platformRows := platformRows + [row];
    }
    TakeAll(platforms);
  }

  /** One site record of `convert_sites_data`. */
  method ConvertSite(site: Value) returns (row: Row)
    ensures row == SiteRow(site)
  {
    var optionRows, optionIds := ConvertSiteOptions(site);
    var platformRows := ConvertSitePlatforms(site);
    var founded := Field(site, "founded");
    var foundedAt := VNone;
    if founded != VNone && Field(founded, "timestamp").VNum? {
      foundedAt := VTime(Field(founded, "timestamp").n);
    }
    row := [ ("siteid", Field(site, "siteId")),
             ("addresssystemid", LineEntityId(site, 0)),
             ("addressplanetid", LineEntityId(site, 1)),
             ("foundedtimestamp", foundedAt),
             ("area", Field(site, "area")),
             ("investedpermits", Field(site, "investedPermits")),
             ("maximumpermits", Field(site, "maximumPermits")),
             ("buildingoptions", VList(optionIds)),
             ("building_options", DictList(optionRows)),
             ("platforms", DictList(platformRows)) ];
  }

  /** `convert_sites_data`: the loop over the selected site records, one site row per record, in order. */
  method ConvertSites(raw: Value) returns (sites: seq<Row>)
    ensures sites == Map(SiteRecordsOf(raw), SiteRow)
  {
    var records := SiteRecordsOf(raw);
    sites := [];
    for i := 0 to |records|
      invariant sites == Map(records[..i], SiteRow)
    {
      var row := ConvertSite(records[i]);
      MapStep(records, SiteRow, i);
      sites := sites + [row];
    }
    TakeAll(records);
  }

  /** Which records are converted: the 'sites' list, else a lone site, else none. */
  lemma SiteSelection(raw: Value)
    ensures var payload := Field(raw, "payload");
      (Field(payload, "sites").VList? ==> SiteRecordsOf(raw) == Field(payload, "sites").items)
      && (Field(payload, "sites").VNone? && !Field(payload, "siteId").VNone? ==> SiteRecordsOf(raw) == [payload])
      && (Field(payload, "sites").VNone? && Field(payload, "siteId").VNone? ==> SiteRecordsOf(raw) == [])
  {
  }

  /** Platform rows carry the cleaned id, with no NUL left in it. */
  lemma PlatformIdClean(platform: Value)
    ensures Get(PlatformRow(platform), "platformid") == CleanId(Field(platform, "id"))
    ensures var id := Get(PlatformRow(platform), "platformid"); id.VStr? ==> '\0' !in id.s
  {
    CleanIdSpec(Field(platform, "id"));
  }

  /** So do the rows of its reclaimable and repair materials, each tagged with its list. */
  lemma PlatformMaterialIdClean(platform: Value, material: Value, kind: string)
    ensures Get(PlatformMaterialRow(platform, material, kind), "platformid") == CleanId(Field(platform, "id"))
    ensures Get(PlatformMaterialRow(platform, material, kind), "materialtype") == VStr(kind)
    ensures var id := Get(PlatformMaterialRow(platform, material, kind), "platformid"); id.VStr? ==> '\0' !in id.s
  {
    CleanIdSpec(Field(platform, "id"));
    var row := PlatformMaterialRow(platform, material, kind);
    assert row == row[..3] + row[3..];
    assert !HasKey(row[..3], row[3].0);
    GetAfter(row[..3], row[3..], row[3].0);
  }

  /** A site lists the ids of its build options, in order. */
  lemma SiteOptionIds(site: Value)
    ensures Get(SiteRow(site), "buildingoptions") == VList(Map(BuildOptionsOf(site), OptionId))
  {
    var row := SiteRow(site);
    assert row == row[..7] + row[7..];
    assert !HasKey(row[..7], "buildingoptions");
    GetAfter(row[..7], row[7..], "buildingoptions");
  }

  /** The `j`-th listed id is the id in the `j`-th build option's row. */
  lemma OptionIdMatchesRow(site: Value, j: nat)
    requires j < |BuildOptionsOf(site)|
    ensures Map(BuildOptionsOf(site), OptionId)[j] == Get(BuildOptionRow(BuildOptionsOf(site)[j]), "buildingid")
  {
  }

  // ---------------------------------------------------------------------
  // convert_planets_data

  /** `planet_id if planet_id is not None else 'null'`, which every planet table row carries. */
  function PlanetIdOf(payload: Value): Value
  {
    OrNull(Field(payload, "planetId"))
  }

  function PlanetDataOf(payload: Value): Value
  {
    FieldOr(payload, "data", VDict([]))
  }

  /** `country.get(k) if country is not None else 'null'`, with `country = payload.get('country', {})`. */
  function CountryField(payload: Value, k: string): Value
  {
    var country := FieldOr(payload, "country", VDict([]));
    if country.VNone? then VStr("null") else Field(country, k)
  }

  function NamerOf(payload: Value): Value
  {
    var namer := Field(payload, "namer");
    if namer.VNone? then VStr("null") else Field(namer, "username")
  }

  function PlanetRow(payload: Value): Row
  {
    var data := PlanetDataOf(payload);
    [ ("planetid", PlanetIdOf(payload)),
      ("naturalid", Field(payload, "naturalId")),
      ("name", Field(payload, "name")),
      ("namer", NamerOf(payload)),
      ("namingdate", TimeOf(Field(payload, "namingDate"))),
      ("nameable", Field(payload, "nameable")),
      ("systemid", LineEntityId(payload, 0)),
      ("sunlight", Field(data, "sunlight")),
      ("surface", Field(data, "surface")),
      ("temperature", Field(data, "temperature")),
      ("plots", Field(data, "plots")),
      ("fertility", Field(data, "fertility")),
      ("populationid", Field(payload, "populationId")),
      ("admincenterid", Field(payload, "adminCenterId")),
      ("countrycode", CountryField(payload, "code")),
      ("countryname", CountryField(payload, "name")) ]
  }

  function ResourcesOf(payload: Value): seq<Value>
  {
    Items(FieldOr(PlanetDataOf(payload), "resources", VList([])))
  }

  function ResourceRow(planetId: Value, resource: Value): Row
  {
    [ ("planetid", planetId),
      ("materialid", Field(resource, "materialId")),
      ("type", Field(resource, "type")),
      ("factor", OrElse(Field(resource, "factor"), VNum(0.0))) ]
  }

  function ResourceRows(payload: Value): seq<Row>
  {
    var rs := ResourcesOf(payload);
    seq(|rs|, j requires 0 <= j < |rs| => ResourceRow(PlanetIdOf(payload), rs[j]))
  }

  function PlanetOptionsOf(payload: Value): seq<Value>
  {
    Items(FieldOr(FieldOr(payload, "buildOptions", VDict([])), "options", VList([])))
  }

  /** A build option row; `dumps` is `json.dumps`. */
  function PlanetOptionRow(planetId: Value, option: Value, dumps: Value -> string): Row
  {
    [ ("planetid", planetId),
      ("sitetype", Field(option, "siteType")),
      ("billofmaterial", VStr(dumps(FieldOr(option, "billOfMaterial", VDict([]))))) ]
  }

  function PlanetOptionRows(payload: Value, dumps: Value -> string): seq<Row>
  {
    var os := PlanetOptionsOf(payload);
    seq(|os|, j requires 0 <= j < |os| => PlanetOptionRow(PlanetIdOf(payload), os[j], dumps))
  }

  function ProjectsOf(payload: Value): seq<Value>
  {
    Items(FieldOr(payload, "projects", VList([])))
  }

  function ProjectRow(planetId: Value, project: Value): Row
  {
    [("planetid", planetId), ("type", Field(project, "type")), ("entityid", Field(project, "entityId"))]
  }

  function ProjectRows(payload: Value): seq<Row>
  {
    var ps := ProjectsOf(payload);
    seq(|ps|, j requires 0 <= j < |ps| => ProjectRow(PlanetIdOf(payload), ps[j]))
  }

  function FeesOf(payload: Value): seq<Value>
  {
    var rules := FieldOr(payload, "localRules", VDict([]));
    Items(FieldOr(FieldOr(rules, "productionFees", VDict([])), "fees", VList([])))
  }

  function FeeRow(planetId: Value, fee: Value): Row
  {
    var amount := Field(fee, "fee");
    [ ("planetid", planetId),
      ("category", Field(fee, "category")),
      ("workforcelevel", Field(fee, "workforceLevel")),
      ("feeamount", if amount.VNone? then VNum(0.0) else Field(amount, "amount")),
      ("feecurrency", if amount.VNone? then VStr("null") else Field(amount, "currency")) ]
  }

  function FeeRows(payload: Value): seq<Row>
  {
    var fs := FeesOf(payload);
    seq(|fs|, j requires 0 <= j < |fs| => FeeRow(PlanetIdOf(payload), fs[j]))
  }

  /** The loop over `data.get('resources', [])`. */
  method ConvertResources(payload: Value) returns (rows: seq<Row>)
    ensures rows == ResourceRows(payload)
  {
    var planetId := Field(payload, "planetId");
    var id := if planetId.VNone? then VStr("null") else planetId;
    var rs := ResourcesOf(payload);
    rows := [];
    for j := 0 to |rs|
      invariant rows == ResourceRows(payload)[..j]
    {
      var factor := Field(rs[j], "factor");
      var row := [ ("planetid", id),
                   ("materialid", Field(rs[j], "materialId")),
                   ("type", Field(rs[j], "type")),
                   ("factor", if factor.VNone? then VNum(0.0) else factor) ];
      assert row == ResourceRow(PlanetIdOf(payload), rs[j]);
      Extend(rows, ResourceRows(payload), j, row);
      rows := rows + [row];
    }
    TakeAll(ResourceRows(payload));
  }

  /** The loop over the build options. */
  method ConvertPlanetOptions(payload: Value, dumps: Value -> string) returns (rows: seq<Row>)
    ensures rows == PlanetOptionRows(payload, dumps)
  {
    var os := PlanetOptionsOf(payload);
    rows := [];
    for j := 0 to |os|
      invariant rows == PlanetOptionRows(payload, dumps)[..j]
    {
      var row := PlanetOptionRow(PlanetIdOf(payload), os[j], dumps);
      Extend(rows, PlanetOptionRows(payload, dumps), j, row);
      rows := rows + [row];
    }
    TakeAll(PlanetOptionRows(payload, dumps));
  }

  /** The loop over the projects. */
  method ConvertProjects(payload: Value) returns (rows: seq<Row>)
    ensures rows == ProjectRows(payload)
  {
    var ps := ProjectsOf(payload);
    rows := [];
    for j := 0 to |ps|
      invariant rows == ProjectRows(payload)[..j]
    {
      var row := ProjectRow(PlanetIdOf(payload), ps[j]);
      Extend(rows, ProjectRows(payload), j, row);
      rows := rows + [row];
    }
    TakeAll(ProjectRows(payload));
  }

  /** The loop over the production fees. */
  method ConvertFees(payload: Value) returns (rows: seq<Row>)
    ensures rows == FeeRows(payload)
  {
    var fs := FeesOf(payload);
    rows := [];
    for j := 0 to |fs|
      invariant rows == FeeRows(payload)[..j]
    {
      var row := FeeRow(PlanetIdOf(payload), fs[j]);
      Extend(rows, FeeRows(payload), j, row);
      rows := rows + [row];
    }
    TakeAll(FeeRows(payload));
  }

  /** `convert_planets_data`: the planet row and its resource, build option, project and fee rows. */
  method ConvertPlanets(raw: Value, dumps: Value -> string)
    returns (planet: Row, resources: seq<Row>, options: seq<Row>, projects: seq<Row>, fees: seq<Row>)
    ensures var payload := Field(raw, "payload");
      planet == PlanetRow(payload) && resources == ResourceRows(payload) && options == PlanetOptionRows(payload, dumps)
      && projects == ProjectRows(payload) && fees == FeeRows(payload)
  {
    var payload := Field(raw, "payload");
    planet := PlanetRow(payload);
    resources := ConvertResources(payload);
    options := ConvertPlanetOptions(payload, dumps);
    projects := ConvertProjects(payload);
    fees := ConvertFees(payload);
  }

  /** A missing resource factor becomes 0.0; a present one is kept. */
  lemma ResourceFactorDefault(planetId: Value, resource: Value)
    ensures Get(ResourceRow(planetId, resource), "factor") ==
      if Field(resource, "factor").VNone? then VNum(0.0) else Field(resource, "factor")
  {
    var row := ResourceRow(planetId, resource);
    assert row == row[..3] + row[3..];
    assert !HasKey(row[..3], row[3].0);
    GetAfter(row[..3], row[3..], row[3].0);
  }

  /** A fee without an amount record becomes amount 0 in currency 'null'. */
  lemma FeeDefault(planetId: Value, fee: Value)
    requires Field(fee, "fee").VNone?
    ensures Get(FeeRow(planetId, fee), "feeamount") == VNum(0.0)
    ensures Get(FeeRow(planetId, fee), "feecurrency") == VStr("null")
  {
    var row := FeeRow(planetId, fee);
    assert row == row[..3] + row[3..];
    assert !HasKey(row[..3], row[3].0);
    GetAfter(row[..3], row[3..], row[3].0);
    assert row == row[..4] + row[4..];
    assert !HasKey(row[..4], row[4].0);
    GetAfter(row[..4], row[4..], row[4].0);
  }

  /** The planet row names the planet id, which is never None. */
  lemma PlanetRowId(payload: Value)
    ensures Get(PlanetRow(payload), "planetid") == PlanetIdOf(payload) && !PlanetIdOf(payload).VNone?
  {
  }

  /** Every resource and build option row names the planet id. */
  lemma PlanetIdInResources(payload: Value, dumps: Value -> string)
    ensures forall j :: 0 <= j < |ResourcesOf(payload)| ==> Get(ResourceRows(payload)[j], "planetid") == PlanetIdOf(payload)
    ensures forall j :: 0 <= j < |PlanetOptionsOf(payload)| ==> Get(PlanetOptionRows(payload, dumps)[j], "planetid") == PlanetIdOf(payload)
  {
  }

  /** Every project and fee row names the planet id. */
  lemma PlanetIdInProjects(payload: Value)
    ensures forall j :: 0 <= j < |ProjectsOf(payload)| ==> Get(ProjectRows(payload)[j], "planetid") == PlanetIdOf(payload)
    ensures forall j :: 0 <= j < |FeesOf(payload)| ==> Get(FeeRows(payload)[j], "planetid") == PlanetIdOf(payload)
  {
  }
}
