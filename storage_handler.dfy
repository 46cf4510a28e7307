/**
 * `handle_storage_data_message` and `sync_storage_items` with their SQL
 * calls taken out. The handler splits the storage records into rows to
 * insert and rows to update by whether the database already knows their
 * `storageid`; then, per storage, the items are keyed by a composite key
 * and split into inserts, updates and deletes against the stored items.
 */
module StorageHandler {
  import opened Wrappers
  import opened PyValues
  import opened Reconcile
  import opened KeyedLists
  import opened Flattening

  /** `(row[keyField], row[valueField])` for each row a query returned. */
  function FieldPairs(rows: seq<Row>, keyField: string, valueField: string): (ps: seq<(Value, Value)>)
    ensures |ps| == |rows| && forall i :: 0 <= i < |rows| ==> ps[i] == (Get(rows[i], keyField), Get(rows[i], valueField))
  {
    seq(|rows|, i requires 0 <= i < |rows| => (Get(rows[i], keyField), Get(rows[i], valueField)))
  }

  // ---------------------------------------------------------------------
  // sync_storage_items

  /** An entry of `incoming_items_map`: the composite key and the item stored under it. */
  type Entry = (string, Row)

  function EntryKey(e: Entry): string
  {
    e.0
  }

  /** `f"{storage_id}-{material_id}"`; `str` gives the text Python writes for a value. */
  function CompositeKey(str: Value -> string, storageId: Value, materialId: Value): string
  {
    str(storageId) + "-" + str(materialId)
  }

  /** The item after `item["compositekey"] = key` and `item["storageid"] = storage_id`. */
  function Stamp(item: Row, key: string, storageId: Value): Row
  {
    Put(Put(item, "compositekey", VStr(key)), "storageid", storageId)
  }

  /** The stamped item holds its key and its storage id; every other field is the item's own. */
  lemma StampFields(item: Row, key: string, storageId: Value, k: string)
    ensures Get(Stamp(item, key, storageId), "compositekey") == VStr(key)
    ensures Get(Stamp(item, key, storageId), "storageid") == storageId
    ensures k != "compositekey" && k != "storageid" ==> Get(Stamp(item, key, storageId), k) == Get(item, k)
  {
    var once := Put(item, "compositekey", VStr(key));
    PutGet(item, "compositekey", VStr(key), k);
    PutGet(item, "compositekey", VStr(key), "compositekey");
    PutGet(once, "storageid", storageId, k);
    PutGet(once, "storageid", storageId, "compositekey");
    PutGet(once, "storageid", storageId, "storageid");
  }

  /** The entry an item makes, when its `materialid` is truthy. */
  function EntryOf(str: Value -> string, storageId: Value, item: Row): Entry
  {
    var key := CompositeKey(str, storageId, Get(item, "materialid"));
    (key, Stamp(item, key, storageId))
  }

  /** What the loop over `incoming_items` stores, in order: one entry per item with a truthy `materialid`. */
  function StampedEntries(str: Value -> string, storageId: Value, items: seq<Row>): (es: seq<Entry>)
    ensures |es| <= |items|
  {
    if items == [] then []
    else
      var item := items[|items| - 1];
      StampedEntries(str, storageId, items[..|items| - 1])
        + if Truthy(Get(item, "materialid")) then [EntryOf(str, storageId, item)] else []
  }

  /** Every stored entry comes from an item with a truthy `materialid`. */
  lemma {:induction false} StampedEntryFrom(str: Value -> string, storageId: Value, items: seq<Row>, e: Entry)
    requires e in StampedEntries(str, storageId, items)
    ensures exists i :: 0 <= i < |items| && Truthy(Get(items[i], "materialid")) && e == EntryOf(str, storageId, items[i])
  {
    var n := |items| - 1;
    if e in StampedEntries(str, storageId, items[..n]) {
      StampedEntryFrom(str, storageId, items[..n], e);
      var i :| 0 <= i < n && Truthy(Get(items[..n][i], "materialid")) && e == EntryOf(str, storageId, items[..n][i]);
      assert items[..n][i] == items[i];
    }
  }

  /** No item with a truthy `materialid` is dropped. */
  lemma {:induction false} StampedEntryOf(str: Value -> string, storageId: Value, items: seq<Row>, i: nat)
    requires i < |items| && Truthy(Get(items[i], "materialid"))
    ensures EntryOf(str, storageId, items[i]) in StampedEntries(str, storageId, items)
  {
    var n := |items| - 1;
    if i < n {
      var init := items[..n];
      assert init[i] == items[i];
      StampedEntryOf(str, storageId, init, i);
      InAppend(EntryOf(str, storageId, init[i]), StampedEntries(str, storageId, init),
               if Truthy(Get(items[n], "materialid")) then [EntryOf(str, storageId, items[n])] else []);
    } else {
      StampedLast(str, storageId, items);
    }
  }

  lemma StampedLast(str: Value -> string, storageId: Value, items: seq<Row>)
    requires items != [] && Truthy(Get(items[|items| - 1], "materialid"))
    ensures EntryOf(str, storageId, items[|items| - 1]) in StampedEntries(str, storageId, items)
  {
    var pre := StampedEntries(str, storageId, items[..|items| - 1]);
    var e := EntryOf(str, storageId, items[|items| - 1]);
    assert (pre + [e])[|pre|] == e;
  }

  /** The loop `for item in incoming_items` that fills `incoming_items_map`. */
  method BuildItemsMap(str: Value -> string, storageId: Value, items: seq<Row>) returns (m: seq<Entry>)
    ensures m == PutAll(StampedEntries(str, storageId, items), EntryKey)
  {
    m := [];
    for i := 0 to |items|
      invariant m == PutAll(StampedEntries(str, storageId, items[..i]), EntryKey)
    {
      var item := items[i];
      assert items[..i + 1][..i] == items[..i];
      var prior := StampedEntries(str, storageId, items[..i]);
      var materialId := Get(item, "materialid");
      if Truthy(materialId) {
        var key := CompositeKey(str, storageId, materialId);
        PutAllSnoc(prior, EntryKey, (key, Stamp(item, key, storageId)));
        m := PutBy(m, EntryKey, (key, Stamp(item, key, storageId)));
      } else {
        assert prior + [] == prior;
      }
    }
    assert items[..|items|] == items;
  }

  /** The incoming map keeps, for each composite key, the last item stored under it, and no other entry. */
  lemma ItemsMapLast(str: Value -> string, storageId: Value, items: seq<Row>, k: string)
    ensures var es := StampedEntries(str, storageId, items);
      LookupBy(PutAll(es, EntryKey), EntryKey, k) == LastWith(es, EntryKey, k)
      && forall e :: e in PutAll(es, EntryKey) ==> e in es
  {
    PutAllLast(StampedEntries(str, storageId, items), EntryKey, k);
  }

  /** The three key sets of the sync. */
  datatype KeySplit = KeySplit(insert: set<Value>, update: set<Value>, delete: set<Value>)

  /**
   * Incoming keys the database lacks are inserted, keys on both sides are
   * updated, stored keys no longer incoming are deleted: no key is in two of
   * the sets, and together they hold every key of either side.
   */
  function SplitKeys(incoming: set<Value>, existing: set<Value>): (s: KeySplit)
    ensures s.insert !! s.update && s.insert !! s.delete && s.update !! s.delete
    ensures s.insert + s.update + s.delete == incoming + existing
    ensures s.insert + s.update == incoming && s.update + s.delete == existing
    ensures forall k :: k in s.insert <==> k in incoming && k !in existing
  {
    KeySplit(incoming - existing, incoming * existing, existing - incoming)
  }

  /** `set(incoming_items_map.keys())`. */
  function IncomingKeys(m: seq<Entry>): set<Value>
  {
    set e | e in m :: VStr(e.0)
  }

  /** `{record['compositekey'] for record in all_existing_items}`. */
  function ExistingKeys(existing: seq<Row>): set<Value>
  {
    set r | r in existing :: Get(r, "compositekey")
  }

  /** The columns an item UPDATE never sets. */
  const ItemKeyColumns: set<string> := {"compositekey", "storageid", "xata_id"}

  /**
   * The UPDATE of one stored item: every column but the key columns, the
   * row addressed by its composite key in the last placeholder.
   */
  function ItemUpdate(row: Row): (u: Update)
    ensures u.conditions == [("compositekey", |u.assignments| + 1)]
    ensures Binds(u.args, |u.assignments| + 1, Get(row, "compositekey"))
  {
    KeyLastUpdate("compositekey", Get(row, "compositekey"), RemoveAll(row, ItemKeyColumns))
  }

  /** An item UPDATE sets only columns of the item, and none of the key columns. */
  lemma ItemUpdateColumns(row: Row, i: nat)
    requires i < |ItemUpdate(row).assignments|
    ensures ItemUpdate(row).assignments[i].0 !in ItemKeyColumns && HasKey(row, ItemUpdate(row).assignments[i].0)
  {
    var data := RemoveAll(row, ItemKeyColumns);
    assert Keys(data)[i] == data[i].0;
  }

  /** What one sync writes. The statements of each kind are issued in set order, which is left open. */
  datatype ItemSync = ItemSync(inserts: set<Row>, updates: set<Update>, deletes: set<Value>)

  /** The sync of one storage from its stored items map and the items the database holds for it. */
  function SyncOf(m: seq<Entry>, existing: seq<Row>): ItemSync
  {
    var s := SplitKeys(IncomingKeys(m), ExistingKeys(existing));
    var ids := FieldPairs(existing, "compositekey", "xata_id");
    ItemSync(set e | e in m && VStr(e.0) in s.insert :: e.1,
             set e | e in m && VStr(e.0) in s.update :: ItemUpdate(e.1),
             set k | k in s.delete :: LastKeyed(ids, k).UnwrapOr(VNone))
  }

  /** `sync_storage_items(db, storage_id, incoming_items)` given the items the database holds for the storage. */
  function ItemSyncOf(str: Value -> string, storageId: Value, incomingItems: Value, existing: seq<Row>): ItemSync
  {
    SyncOf(PutAll(StampedEntries(str, storageId, DictRows(incomingItems)), EntryKey), existing)
  }

  method SyncStorageItems(str: Value -> string, storageId: Value, incomingItems: Value, existing: seq<Row>)
    returns (sync: ItemSync)
    ensures sync == ItemSyncOf(str, storageId, incomingItems, existing)
  {
    var m := BuildItemsMap(str, storageId, DictRows(incomingItems));
    var incomingKeys := set e | e in m :: VStr(e.0);
    var existingKeys := set r | r in existing :: Get(r, "compositekey");
    var toInsert, toUpdate, toDelete := incomingKeys - existingKeys, incomingKeys * existingKeys, existingKeys - incomingKeys;
    var ids := FieldPairs(existing, "compositekey", "xata_id");
    sync := ItemSync(set e | e in m && VStr(e.0) in toInsert :: e.1,
                     set e | e in m && VStr(e.0) in toUpdate :: ItemUpdate(e.1),
                     set k | k in toDelete :: LastKeyed(ids, k).UnwrapOr(VNone));
  }

  /** Every entry of the incoming map holds its own key and the storage id. */
  lemma MapEntryFields(str: Value -> string, storageId: Value, items: seq<Row>, e: Entry)
    requires e in PutAll(StampedEntries(str, storageId, items), EntryKey)
    ensures Get(e.1, "compositekey") == VStr(e.0) && Get(e.1, "storageid") == storageId
  {
    ItemsMapLast(str, storageId, items, e.0);
    StampedEntryFrom(str, storageId, items, e);
    var i :| 0 <= i < |items| && Truthy(Get(items[i], "materialid")) && e == EntryOf(str, storageId, items[i]);
    StampFields(items[i], e.0, storageId, "");
  }

  /** An inserted item is stamped with the storage id and a composite key the database does not hold. */
  lemma InsertedItemsAreNew(str: Value -> string, storageId: Value, incomingItems: Value, existing: seq<Row>, row: Row)
    requires row in ItemSyncOf(str, storageId, incomingItems, existing).inserts
    ensures Get(row, "storageid") == storageId
    ensures Get(row, "compositekey") !in ExistingKeys(existing)
  {
    var m := PutAll(StampedEntries(str, storageId, DictRows(incomingItems)), EntryKey);
    var e :| e in m && VStr(e.0) in SplitKeys(IncomingKeys(m), ExistingKeys(existing)).insert && e.1 == row;
    MapEntryFields(str, storageId, DictRows(incomingItems), e);
  }

  /**
   * For each composite key some incoming item has, the last item with that
   * key is inserted when the database lacks the key and updated when it
   * holds it.
   */
  lemma LastItemPlaced(str: Value -> string, storageId: Value, incomingItems: Value, existing: seq<Row>, k: string)
    requires LastWith(StampedEntries(str, storageId, DictRows(incomingItems)), EntryKey, k).Some?
    ensures var e := LastWith(StampedEntries(str, storageId, DictRows(incomingItems)), EntryKey, k).value;
      var sync := ItemSyncOf(str, storageId, incomingItems, existing);
      (VStr(k) !in ExistingKeys(existing) ==> e.1 in sync.inserts)
      && (VStr(k) in ExistingKeys(existing) ==> ItemUpdate(e.1) in sync.updates)
  {
    var es := StampedEntries(str, storageId, DictRows(incomingItems));
    var m := PutAll(es, EntryKey);
    ItemsMapLast(str, storageId, DictRows(incomingItems), k);
    var e := LookupBy(m, EntryKey, k).value;
    assert e in m && e.0 == k;
    assert VStr(k) in IncomingKeys(m);
  }

  /** Every deleted id is the `xata_id` of a stored item whose composite key is no longer incoming. */
  lemma DeletedIdsAreStale(str: Value -> string, storageId: Value, incomingItems: Value, existing: seq<Row>, id: Value)
    requires id in ItemSyncOf(str, storageId, incomingItems, existing).deletes
    ensures var m := PutAll(StampedEntries(str, storageId, DictRows(incomingItems)), EntryKey);
      exists r :: r in existing && Get(r, "xata_id") == id && Get(r, "compositekey") !in IncomingKeys(m)
  {
    var m := PutAll(StampedEntries(str, storageId, DictRows(incomingItems)), EntryKey);
    var ids := FieldPairs(existing, "compositekey", "xata_id");
    var k :| k in ExistingKeys(existing) - IncomingKeys(m) && LastKeyed(ids, k).UnwrapOr(VNone) == id;
    var r0 :| r0 in existing && Get(r0, "compositekey") == k;
    var i0 :| 0 <= i0 < |existing| && existing[i0] == r0;
    assert ids[i0].0 == k;
    LastKeyedFound(ids, i0);
    var i :| 0 <= i < |ids| && ids[i] == (k, LastKeyed(ids, k).value);
    assert existing[i] in existing;
  }

  /** Every stored item whose composite key is no longer incoming has its key's `xata_id` deleted. */
  lemma StaleItemsDeleted(str: Value -> string, storageId: Value, incomingItems: Value, existing: seq<Row>, i: nat)
    requires i < |existing|
    requires var m := PutAll(StampedEntries(str, storageId, DictRows(incomingItems)), EntryKey);
      Get(existing[i], "compositekey") !in IncomingKeys(m)
    ensures var ids := FieldPairs(existing, "compositekey", "xata_id");
      var k := Get(existing[i], "compositekey");
      LastKeyed(ids, k).Some? && LastKeyed(ids, k).value in ItemSyncOf(str, storageId, incomingItems, existing).deletes
  {
    var ids := FieldPairs(existing, "compositekey", "xata_id");
    assert ids[i].0 == Get(existing[i], "compositekey");
    LastKeyedFound(ids, i);
    assert existing[i] in existing;
  }

  // ---------------------------------------------------------------------
  // handle_storage_data_message

  /** The copy of a storage record that is written: without its items, stamped with the user id. */
  function StorageRow(rec: Row, userId: Value): Row
  {
    Put(Remove(rec, "storage_items"), "userid", userId)
  }

  /** The written copy lacks `storage_items`, holds the user id, and keeps every other field. */
  lemma StorageRowFields(rec: Row, userId: Value, k: string)
    ensures !HasKey(StorageRow(rec, userId), "storage_items")
    ensures Get(StorageRow(rec, userId), "userid") == userId
    ensures k != "userid" && k != "storage_items" ==> Get(StorageRow(rec, userId), k) == Get(rec, k)
  {
    PutGet(Remove(rec, "storage_items"), "userid", userId, k);
    PutGet(Remove(rec, "storage_items"), "userid", userId, "userid");
    if k != "storage_items" {
      RemoveGet(rec, "storage_items", k);
    }
  }

  /** `records_to_insert` after the loop has seen `recs`: records with a truthy id the database lacks. */
  function StorageInserts(recs: seq<Row>, userId: Value, ids: seq<(Value, Value)>): seq<Row>
  {
    if recs == [] then []
    else
      var rec := recs[|recs| - 1];
      var storageId := Get(rec, "storageid");
      StorageInserts(recs[..|recs| - 1], userId, ids)
        + if Truthy(storageId) && LastKeyed(ids, storageId).None? then [StorageRow(rec, userId)] else []
  }

  /**
   * `records_to_update` after the loop has seen `recs`: records with a
   * truthy id the database knows, their `storageid` replaced by the stored
   * `xata_id`.
   */
  function StorageUpdates(recs: seq<Row>, userId: Value, ids: seq<(Value, Value)>): seq<Row>
  {
    if recs == [] then []
    else
      var rec := recs[|recs| - 1];
      var storageId := Get(rec, "storageid");
      var stored := LastKeyed(ids, storageId);
      StorageUpdates(recs[..|recs| - 1], userId, ids)
        + if Truthy(storageId) && stored.Some? then [Put(StorageRow(rec, userId), "storageid", stored.value)] else []
  }

  /** `[record.get('storageid') for record in storage_records if record.get('storageid')]`. */
  function StorageIds(recs: seq<Row>): (r: seq<Value>)
    ensures forall i :: 0 <= i < |r| ==> Truthy(r[i])
  {
    if recs == [] then []
    else
      var storageId := Get(recs[|recs| - 1], "storageid");
      StorageIds(recs[..|recs| - 1]) + if Truthy(storageId) then [storageId] else []
  }

  /** Every record with a truthy id is either inserted or updated, never both; the others are skipped. */
  lemma {:induction false} StorageSplitCounts(recs: seq<Row>, userId: Value, ids: seq<(Value, Value)>)
    ensures |StorageInserts(recs, userId, ids)| + |StorageUpdates(recs, userId, ids)| == |StorageIds(recs)|
  {
    if recs != [] {
      StorageSplitCounts(recs[..|recs| - 1], userId, ids);
    }
  }

  /** Where one record goes: a new id among the inserts, a known id among the updates with the stored `xata_id`. */
  lemma {:induction false} StoragePlaced(recs: seq<Row>, userId: Value, ids: seq<(Value, Value)>, i: nat)
    requires i < |recs| && Truthy(Get(recs[i], "storageid"))
    ensures var stored := LastKeyed(ids, Get(recs[i], "storageid"));
      (stored.None? ==> StorageRow(recs[i], userId) in StorageInserts(recs, userId, ids))
      && (stored.Some? ==> Put(StorageRow(recs[i], userId), "storageid", stored.value) in StorageUpdates(recs, userId, ids))
  {
    var n := |recs| - 1;
    if i < n {
      StoragePlaced(recs[..n], userId, ids, i);
      assert recs[..n][i] == recs[i];
    }
  }

  /** An inserted row keeps the record's truthy `storageid`, which the database lacks. */
  lemma {:induction false} InsertedStoragesAreNew(recs: seq<Row>, userId: Value, ids: seq<(Value, Value)>, row: Row)
    requires row in StorageInserts(recs, userId, ids)
    ensures Truthy(Get(row, "storageid")) && LastKeyed(ids, Get(row, "storageid")).None?
    ensures Get(row, "userid") == userId && !HasKey(row, "storage_items")
  {
    var n := |recs| - 1;
    if row in StorageInserts(recs[..n], userId, ids) {
      InsertedStoragesAreNew(recs[..n], userId, ids, row);
    } else {
      StorageRowFields(recs[n], userId, "storageid");
    }
  }

  /** The UPDATE of a stored storage row: `WHERE xata_id = $1`, the other fields from `$2` on. */
  function StorageUpdateOf(row: Row): (u: Update)
    ensures u.conditions == [("xata_id", 1)] && Binds(u.args, 1, Get(row, "storageid"))
    ensures forall i :: 0 <= i < |u.assignments| ==> u.assignments[i].1 >= 2
  {
    KeyFirstUpdate(["xata_id"], [Get(row, "storageid")], Remove(row, "storageid"))
  }

  /** A storage UPDATE never sets `storageid`: it sets the other columns of the row. */
  lemma StorageUpdateColumns(row: Row, i: nat)
    requires i < |StorageUpdateOf(row).assignments|
    ensures StorageUpdateOf(row).assignments[i].0 != "storageid" && HasKey(row, StorageUpdateOf(row).assignments[i].0)
  {
    var data := Remove(row, "storageid");
    assert Keys(data)[i] == data[i].0;
  }

  /** The loop over `records_to_update`. */
  method StorageUpdateStatements(rows: seq<Row>) returns (us: seq<Update>)
    ensures us == Map(rows, StorageUpdateOf)
  {
    us := [];
    for i := 0 to |rows|
      invariant us == Map(rows[..i], StorageUpdateOf)
    {
      MapStep(rows, StorageUpdateOf, i);
      us := us + [StorageUpdateOf(rows[i])];
    }
    TakeAll(rows);
  }

  /** The per-storage syncs after the loop has seen `recs`: one for each record with a truthy id. */
  function StorageSyncs(str: Value -> string, recs: seq<Row>, fetchItems: Value -> seq<Row>): (r: seq<(Value, ItemSync)>)
    ensures |r| == |StorageIds(recs)|
  {
    if recs == [] then []
    else
      var rec := recs[|recs| - 1];
      var storageId := Get(rec, "storageid");
      StorageSyncs(str, recs[..|recs| - 1], fetchItems)
        + if Truthy(storageId) then [(storageId, ItemSyncOf(str, storageId, GetOr(rec, "storage_items", VList([])), fetchItems(storageId)))]
          else []
  }

  /** The loop `for record in storage_records` that syncs the items. */
  method SyncAll(str: Value -> string, recs: seq<Row>, fetchItems: Value -> seq<Row>) returns (syncs: seq<(Value, ItemSync)>)
    ensures syncs == StorageSyncs(str, recs, fetchItems)
  {
    syncs := [];
    for i := 0 to |recs|
      invariant syncs == StorageSyncs(str, recs[..i], fetchItems)
    {
      var rec := recs[i];
      assert recs[..i + 1][..i] == recs[..i];
      var storageId := Get(rec, "storageid");
      if Truthy(storageId) {
        var sync := SyncStorageItems(str, storageId, GetOr(rec, "storage_items", VList([])), fetchItems(storageId));
        syncs := syncs + [(storageId, sync)];
      } else {
        assert StorageSyncs(str, recs[..i], fetchItems) + [] == StorageSyncs(str, recs[..i], fetchItems);
      }
    }
    assert recs[..|recs|] == recs;
  }

  /** The insert/update split loop. */
  method SplitStorages(recs: seq<Row>, userId: Value, ids: seq<(Value, Value)>) returns (inserts: seq<Row>, updates: seq<Row>)
    ensures inserts == StorageInserts(recs, userId, ids) && updates == StorageUpdates(recs, userId, ids)
  {
    inserts, updates := [], [];
    for i := 0 to |recs|
      invariant inserts == StorageInserts(recs[..i], userId, ids)
      invariant updates == StorageUpdates(recs[..i], userId, ids)
    {
      var rec := recs[i];
      assert recs[..i + 1][..i] == recs[..i];
      var storageId := Get(rec, "storageid");
      if !Truthy(storageId) {
        assert StorageInserts(recs[..i], userId, ids) + [] == StorageInserts(recs[..i], userId, ids);
        assert StorageUpdates(recs[..i], userId, ids) + [] == StorageUpdates(recs[..i], userId, ids);
        continue;
      }
      var temp := Remove(rec, "storage_items");
      temp := Put(temp, "userid", userId);
      var stored := LastKeyed(ids, storageId);
      if stored.None? {
        inserts := inserts + [temp];
        assert StorageUpdates(recs[..i], userId, ids) + [] == StorageUpdates(recs[..i], userId, ids);
      } else {
        temp := Put(temp, "storageid", stored.value);
        updates := updates + [temp];
        assert StorageInserts(recs[..i], userId, ids) + [] == StorageInserts(recs[..i], userId, ids);
      }
    }
    assert recs[..|recs|] == recs;
  }

  datatype StorageOutcome =
      /** Success with nothing to do: the payload has no storage records. */
    | NothingToProcess
    | UserNotFound
    | NoValidStorageIds
      /** Success, with what was written and the number of storage records. */
    | StoragesProcessed(inserts: seq<Row>, updates: seq<Update>, syncs: seq<(Value, ItemSync)>, processed: nat)

  predicate Succeeded(o: StorageOutcome)
  {
    o.NothingToProcess? || o.StoragesProcessed?
  }

  /**
   * `handle_storage_data_message` given the converted data, the user row,
   * the `(storageid, xata_id)` rows the database returns for the incoming
   * ids, and the stored items of each storage.
   */
  function StorageOutcomeOf(str: Value -> string, data: Row, user: Option<Row>, fetched: seq<Row>, fetchItems: Value -> seq<Row>): (r: StorageOutcome)
    ensures r == NothingToProcess <==> !Truthy(Get(data, "storages"))
    ensures r == UserNotFound <==> Truthy(Get(data, "storages")) && UserIdOf(user).None?
  {
    var records := Get(data, "storages");
    if !Truthy(records) then NothingToProcess
    else
      match UserIdOf(user)
      case None => UserNotFound
      case Some(userId) =>
        var recs := DictRows(records);
        if StorageIds(recs) == [] then NoValidStorageIds
        else
          var ids := FieldPairs(fetched, "storageid", "xata_id");
          StoragesProcessed(StorageInserts(recs, userId, ids), Map(StorageUpdates(recs, userId, ids), StorageUpdateOf),
                            StorageSyncs(str, recs, fetchItems), |Items(records)|)
  }

  method HandleStorageData(str: Value -> string, data: Row, user: Option<Row>, fetched: seq<Row>, fetchItems: Value -> seq<Row>)
    returns (outcome: StorageOutcome)
    ensures outcome == StorageOutcomeOf(str, data, user, fetched, fetchItems)
  {
    var records := Get(data, "storages");
    if !Truthy(records) {
      return NothingToProcess;
    }
    var userId: Value;
    match UserIdOf(user) {
      case None =>
        return UserNotFound;
      case Some(u) =>
        userId := u;
    }
    var recs := DictRows(records);
    if StorageIds(recs) == [] {
      return NoValidStorageIds;
    }
    var ids := FieldPairs(fetched, "storageid", "xata_id");
    var inserts, updateRows := SplitStorages(recs, userId, ids);
    var updates := StorageUpdateStatements(updateRows);
    var syncs := SyncAll(str, recs, fetchItems);
    outcome := StoragesProcessed(inserts, updates, syncs, |Items(records)|);
  }

  /**
   * The early results: no storage records is a success with no work; a
   * missing user and a payload without one truthy `storageid` are failures.
   */
  lemma EarlyResults(str: Value -> string, data: Row, user: Option<Row>, fetched: seq<Row>, fetchItems: Value -> seq<Row>)
    ensures var o := StorageOutcomeOf(str, data, user, fetched, fetchItems);
      (o.NothingToProcess? <==> !Truthy(Get(data, "storages")))
      && (o.UserNotFound? <==> Truthy(Get(data, "storages")) && (user.None? || user.value == []))
      && (Succeeded(o) <==> !Truthy(Get(data, "storages"))
                            || (UserIdOf(user).Some? && exists i :: 0 <= i < |DictRows(Get(data, "storages"))|
                                                           && Truthy(Get(DictRows(Get(data, "storages"))[i], "storageid"))))
  {
    var recs := DictRows(Get(data, "storages"));
    StorageIdsEmpty(recs);
  }

  /** No id is collected exactly when no record has a truthy `storageid`. */
  lemma {:induction false} StorageIdsEmpty(recs: seq<Row>)
    ensures StorageIds(recs) == [] <==> forall i :: 0 <= i < |recs| ==> !Truthy(Get(recs[i], "storageid"))
  {
    if recs != [] {
      var n := |recs| - 1;
      StorageIdsEmpty(recs[..n]);
      assert forall i :: 0 <= i < n ==> recs[..n][i] == recs[i];
    }
  }
}
