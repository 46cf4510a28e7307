/**
 * What the database handlers share once their SQL calls are taken out: the
 * changed-field diff, the choice of the user id a handler stamps on its
 * rows, and the numbering of the `$n` placeholders of an UPDATE statement.
 * Query results are inputs; what a handler would write is its output.
 */
module Reconcile {
  import opened Wrappers
  import opened PyValues

  /**
   * `get_changed_fields(new_data, existing_data)` after the loop has seen the
   * entries of `d`: the entries whose value differs from
   * `existing_data.get(key)`, in the order of `d`. (The loop stores them with
   * `changed_fields[key] = new_value`; the keys of a dict are distinct, so
   * each store adds a new key at the end.)
   */
  function ChangedFields(d: Row, existing: Row): (r: Row)
    ensures forall j :: 0 <= j < |r| ==> r[j] in d
  {
    if d == [] then []
    else
      var c := ChangedFields(d[..|d| - 1], existing);
      var e := d[|d| - 1];
      if !Same(e.1, Get(existing, e.0)) then c + [e] else c
  }

  /** `get_changed_fields`: the loop over `new_data.items()`. */
  method GetChangedFields(newData: Row, existing: Row) returns (changed: Row)
    requires UniqueKeys(newData)
    ensures changed == ChangedFields(newData, existing)
  {
    changed := [];
    for i := 0 to |newData|
      invariant changed == ChangedFields(newData[..i], existing)
    {
      var (key, value) := newData[i];
      assert newData[..i + 1][..i] == newData[..i];
      if !Same(value, Get(existing, key)) {
        PutNew(changed, key, value);
        changed := Put(changed, key, value);
      }
    }
    assert newData[..|newData|] == newData;
  }

  /**
   * The diff holds exactly the keys of the new dict whose value differs from
   * what the existing dict has under them (None when it lacks the key), each
   * with its new value; a key only the existing dict has never appears.
   */
  lemma {:induction false} ChangedFieldsSpec(d: Row, existing: Row, k: string)
    requires UniqueKeys(d)
    ensures HasKey(ChangedFields(d, existing), k) <==> HasKey(d, k) && !Same(Get(d, k), Get(existing, k))
    ensures HasKey(ChangedFields(d, existing), k) ==> Get(ChangedFields(d, existing), k) == Get(d, k)
  {
    if d != [] {
      var n := |d| - 1;
      var init, e := d[..n], d[n];
      assert d == init + [e];
      assert UniqueKeys(init);
      ChangedFieldsSpec(init, existing, k);
      var c := ChangedFields(init, existing);
      assert HasKey(d, k) <==> HasKey(init, k) || k == e.0 by {
        assert Keys(d) == Keys(init) + [e.0];
      }
      assert !HasKey(init, e.0);
      if HasKey(init, k) {
        GetAppend(init, [e], k);
      } else {
        GetAfter(init, [e], k);
      }
      if !Same(e.1, Get(existing, e.0)) {
        assert Keys(c + [e]) == Keys(c) + [e.0];
        if HasKey(c, k) {
          GetAppend(c, [e], k);
        } else {
          GetAfter(c, [e], k);
        }
      }
    }
  }

  /** The diff is empty exactly when every new value equals the existing one. */
  lemma NoChanges(d: Row, existing: Row)
    requires UniqueKeys(d)
    ensures ChangedFields(d, existing) == [] <==> forall i :: 0 <= i < |d| ==> Same(d[i].1, Get(existing, d[i].0))
  {
    var c := ChangedFields(d, existing);
    if c == [] {
      forall i | 0 <= i < |d| ensures Same(d[i].1, Get(existing, d[i].0)) {
        ChangedFieldsSpec(d, existing, d[i].0);
        GetAt(d, i);
      }
    } else {
      var k := c[0].0;
      assert Keys(c)[0] == k;
      ChangedFieldsSpec(d, existing, k);
      var i :| 0 <= i < |d| && Keys(d)[i] == k;
      GetAt(d, i);
    }
  }

  /** A dict compared with itself has no changed fields. */
  lemma UnchangedAgainstItself(d: Row)
    requires WellFormed(VDict(d))
    ensures ChangedFields(d, d) == []
  {
    forall i | 0 <= i < |d| ensures Same(d[i].1, Get(d, d[i].0)) {
      GetAt(d, i);
      SameReflexive(d[i].1);
    }
    NoChanges(d, d);
  }

  /**
   * The user id stamped on a handler's rows: `userdataid` when the user row
   * has a non-None one, else the row's `xata_id`; no user row (None, or an
   * empty record) is None.
   */
  function UserIdOf(user: Option<Row>): (r: Option<Value>)
    ensures r.None? <==> user.None? || user.value == []
    ensures r.Some? && Get(user.value, "userdataid") != VNone ==> r.value == Get(user.value, "userdataid")
    ensures r.Some? && Get(user.value, "userdataid") == VNone ==> r.value == Get(user.value, "xata_id")
  {
    if user.Some? && user.value != [] then
      var dataId := Get(user.value, "userdataid");
      Some(if dataId != VNone then dataId else Get(user.value, "xata_id"))
    else None
  }

  /** `list(d.values())`. */
  function Values(d: Row): (vs: seq<Value>)
    ensures |vs| == |d| && forall i :: 0 <= i < |d| ==> vs[i] == d[i].1
  {
    seq(|d|, i requires 0 <= i < |d| => d[i].1)
  }

  /**
   * An UPDATE statement with its arguments: `SET col = $n, ...` and
   * `WHERE col = $n AND ...`, each `$n` naming the `n`-th argument.
   */
  datatype Update = Update(assignments: seq<(string, nat)>, conditions: seq<(string, nat)>, args: seq<Value>)

  /** Placeholder `$n` exists among the arguments and holds `v`. */
  predicate Binds(args: seq<Value>, n: nat, v: Value)
  {
    1 <= n <= |args| && args[n - 1] == v
  }

  /**
   * `SET k = $i + |keyCols| + 1` for the `i`-th changed key and
   * `WHERE keyCols[i] = $i + 1`, called with the key values first and the
   * changed values after them.
   */
  function KeyFirstUpdate(keyCols: seq<string>, keyVals: seq<Value>, data: Row): (u: Update)
    requires |keyCols| == |keyVals|
    ensures |u.assignments| == |data| && |u.conditions| == |keyCols|
    ensures |u.args| == |keyCols| + |data| && u.args[..|keyCols|] == keyVals
    ensures forall i :: 0 <= i < |data| ==>
      u.assignments[i].0 == data[i].0 && Binds(u.args, u.assignments[i].1, data[i].1) && u.assignments[i].1 > |keyCols|
    ensures forall i :: 0 <= i < |keyCols| ==>
      u.conditions[i].0 == keyCols[i] && Binds(u.args, u.conditions[i].1, keyVals[i]) && u.conditions[i].1 <= |keyCols|
  {
    var k := |keyCols|;
    var args := keyVals + Values(data);
    assert args[..k] == keyVals;
    Update(seq(|data|, i requires 0 <= i < |data| => (data[i].0, i + k + 1)),
           seq(k, i requires 0 <= i < k => (keyCols[i], i + 1)),
           args)
  }

  /** The columns an UPDATE sets are exactly the keys of its data. */
  lemma AssignedColumns(keyCols: seq<string>, keyVals: seq<Value>, data: Row, k: string)
    requires |keyCols| == |keyVals|
    ensures (exists i :: 0 <= i < |data| && KeyFirstUpdate(keyCols, keyVals, data).assignments[i].0 == k) <==> HasKey(data, k)
  {
    var a := KeyFirstUpdate(keyCols, keyVals, data).assignments;
    if HasKey(data, k) {
      var i :| 0 <= i < |data| && Keys(data)[i] == k;
      assert a[i].0 == k;
    }
  }

  /**
   * `SET k = $i + 1` for the `i`-th key of `data` and `WHERE keyCol =
   * $len(values)`, where the key value is appended after the data values.
   */
  function KeyLastUpdate(keyCol: string, keyVal: Value, data: Row): (u: Update)
    ensures |u.assignments| == |data| && u.conditions == [(keyCol, |data| + 1)]
    ensures forall i :: 0 <= i < |data| ==>
      u.assignments[i].0 == data[i].0 && Binds(u.args, u.assignments[i].1, data[i].1)
    ensures Binds(u.args, |data| + 1, keyVal) && |u.args| == |data| + 1
  {
    var vs := Values(data);
    Update(seq(|data|, i requires 0 <= i < |data| => (data[i].0, i + 1)), [(keyCol, |data| + 1)], vs + [keyVal])
  }

  /** What happens to a top-level row: inserted whole, updated by its key with its changed fields, or left alone. */
  datatype RowWrite = InsertRow(row: Row) | UpdateRow(update: Update) | Unchanged

  /**
   * A row against the row the database holds for its key (None, or an empty
   * record: no row): inserted whole when there is none; otherwise updated by
   * its key (`$1`) with its changed fields when there are any, and left
   * unchanged when there are none.
   */
  function WriteOf(row: Row, keyCol: string, keyVal: Value, existing: Option<Row>): (w: RowWrite)
    ensures existing.None? || existing.value == [] ==> w == InsertRow(row)
    ensures existing.Some? && existing.value != [] ==> (w.Unchanged? <==> ChangedFields(row, existing.value) == [])
    ensures w.UpdateRow? ==> w.update.conditions == [(keyCol, 1)] && Binds(w.update.args, 1, keyVal)
  {
    if existing.Some? && existing.value != [] then
      var changed := ChangedFields(row, existing.value);
      if changed != [] then UpdateRow(KeyFirstUpdate([keyCol], [keyVal], changed)) else Unchanged
    else InsertRow(row)
  }

  method WriteRow(row: Row, keyCol: string, keyVal: Value, existing: Option<Row>) returns (write: RowWrite)
    requires UniqueKeys(row)
    ensures write == WriteOf(row, keyCol, keyVal, existing)
  {
    if existing.Some? && existing.value != [] {
      var changed := GetChangedFields(row, existing.value);
      if changed != [] {
        write := UpdateRow(KeyFirstUpdate([keyCol], [keyVal], changed));
      } else {
        write := Unchanged;
      }
    } else {
      write := InsertRow(row);
    }
  }

  /** An UPDATE sets exactly the fields whose value differs from the stored row's. */
  lemma UpdateColumns(row: Row, keyCol: string, keyVal: Value, existing: Option<Row>, k: string)
    requires UniqueKeys(row)
    ensures var w := WriteOf(row, keyCol, keyVal, existing);
      w.UpdateRow? ==>
        ((exists i :: 0 <= i < |w.update.assignments| && w.update.assignments[i].0 == k)
         <==> HasKey(row, k) && !Same(Get(row, k), Get(existing.value, k)))
  {
    if WriteOf(row, keyCol, keyVal, existing).UpdateRow? {
      var changed := ChangedFields(row, existing.value);
      ChangedFieldsSpec(row, existing.value, k);
      AssignedColumns([keyCol], [keyVal], changed, k);
    }
  }

  /** A stored row is left unchanged exactly when every field agrees with it. */
  lemma UnchangedIff(row: Row, keyCol: string, keyVal: Value, existing: Option<Row>)
    requires UniqueKeys(row)
    ensures WriteOf(row, keyCol, keyVal, existing).Unchanged?
      <==> existing.Some? && existing.value != [] && forall i :: 0 <= i < |row| ==> Same(row[i].1, Get(existing.value, row[i].0))
  {
    if existing.Some? && existing.value != [] {
      NoChanges(row, existing.value);
    }
  }

  /** `tuple(rec.get(k) for k in key_fields)`. */
  function KeyOf(rec: Row, fields: seq<string>): (key: seq<Value>)
    ensures |key| == |fields| && forall i :: 0 <= i < |fields| ==> key[i] == Get(rec, fields[i])
  {
    seq(|fields|, i requires 0 <= i < |fields| => Get(rec, fields[i]))
  }
}
