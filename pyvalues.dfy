/**
 * Python values as they travel through the converters and the database
 * handlers: JSON-shaped data plus the `datetime` values the converters
 * create. A `dict` is an insertion-ordered list of entries.
 */
module PyValues {
  import opened Wrappers

  datatype Value =
    | VNone
    | VBool(b: bool)
    | VNum(n: real)
    | VStr(s: string)
    | VList(items: seq<Value>)
    | VDict(entries: seq<(string, Value)>)
      /** `datetime.fromtimestamp(ms / 1000)`, kept as the milliseconds it came from. */
    | VTime(epochMs: real)

  /** A Python dict with string keys, in insertion order. */
  type Row = seq<(string, Value)>

  predicate HasKey(d: Row, k: string)
  {
    k in Keys(d)
  }

  /** Distinct keys, as in every real dict. */
  predicate UniqueKeys(d: Row)
  {
    forall i, j :: 0 <= i < j < |d| ==> d[i].0 != d[j].0
  }

  function Keys(d: Row): (ks: seq<string>)
    ensures |ks| == |d| && forall i :: 0 <= i < |d| ==> ks[i] == d[i].0
  {
    if d == [] then [] else [d[0].0] + Keys(d[1..])
  }

  /** `d.get(k, default)`. */
  function GetOr(d: Row, k: string, default: Value): (v: Value)
    ensures !HasKey(d, k) ==> v == default
  {
    if d == [] then default
    else if d[0].0 == k then d[0].1
    else GetOr(d[1..], k, default)
  }

  /** `d.get(k)`: None when the key is absent. */
  function Get(d: Row, k: string): Value
  {
    GetOr(d, k, VNone)
  }

  lemma GetAt(d: Row, i: nat)
    requires UniqueKeys(d) && i < |d|
    ensures HasKey(d, d[i].0) && Get(d, d[i].0) == d[i].1
  {
    assert Keys(d)[i] == d[i].0;
    GetFirst(d, i);
  }

  /** The value at position `i` is what `d.get` finds when no earlier entry has its key. */
  lemma {:induction false} GetFirst(d: Row, i: nat)
    requires i < |d| && forall j :: 0 <= j < i ==> d[j].0 != d[i].0
    ensures Get(d, d[i].0) == d[i].1
  {
    if i > 0 {
      GetFirst(d[1..], i - 1);
    }
  }

  /** Entries appended after a key do not change what `d.get` finds for it. */
  lemma {:induction false} GetAppend(a: Row, b: Row, k: string)
    requires HasKey(a, k)
    ensures Get(a + b, k) == Get(a, k)
  {
    if a[0].0 != k {
      assert (a + b)[1..] == a[1..] + b;
      GetAppend(a[1..], b, k);
    }
  }

  /** A key absent from `a` is looked up in what follows it. */
  lemma {:induction false} GetAfter(a: Row, b: Row, k: string)
    requires !HasKey(a, k)
    ensures Get(a + b, k) == Get(b, k)
  {
    if a != [] {
      assert (a + b)[1..] == a[1..] + b;
      assert Keys(a)[0] == a[0].0 && (a + b)[0] == a[0] && a[0].0 != k;
      GetAfter(a[1..], b, k);
      assert GetOr(a + b, k, VNone) == GetOr(a[1..] + b, k, VNone);
    } else {
      assert a + b == b;
    }
  }

  /** `d[k] = v`: an existing key keeps its position, a new one goes last. */
  function Put(d: Row, k: string, v: Value): (r: Row)
    ensures HasKey(d, k) ==> Keys(r) == Keys(d)
    ensures !HasKey(d, k) ==> Keys(r) == Keys(d) + [k]
  {
    if d == [] then [(k, v)]
    else if d[0].0 == k then
      ConsKeys(d[0], d[1..]);
      ConsKeys((k, v), d[1..]);
      [(k, v)] + d[1..]
    else
      var t := Put(d[1..], k, v);
      ConsKeys(d[0], d[1..]);
      ConsKeys(d[0], t);
      [d[0]] + t
  }

  /** Putting a new key appends it. */
  lemma {:induction false} PutNew(d: Row, k: string, v: Value)
    requires !HasKey(d, k)
    ensures Put(d, k, v) == d + [(k, v)]
  {
    if d != [] {
      assert Keys(d)[0] == d[0].0;
      ConsKeys(d[0], d[1..]);
      PutNew(d[1..], k, v);
      assert [d[0]] + (d[1..] + [(k, v)]) == d + [(k, v)];
    }
  }

  /** After `d[k] = v`, looking up `k` gives `v` and every other key is unchanged. */
  lemma {:induction false} PutGet(d: Row, k: string, v: Value, k2: string)
    ensures HasKey(Put(d, k, v), k)
    ensures Get(Put(d, k, v), k2) == if k2 == k then v else Get(d, k2)
  {
    if d != [] && d[0].0 != k {
      PutGet(d[1..], k, v, k2);
      ConsKeys(d[0], d[1..]);
    }
  }

  /** Putting a key into a dict with distinct keys keeps them distinct. */
  lemma PutKeepsUniqueKeys(d: Row, k: string, v: Value)
    requires UniqueKeys(d)
    ensures UniqueKeys(Put(d, k, v))
  {
    var r := Put(d, k, v);
    var kr, kd := Keys(r), Keys(d);
    forall i, j | 0 <= i < j < |r| ensures r[i].0 != r[j].0 {
      assert r[i].0 == kr[i] && r[j].0 == kr[j];
      if j < |d| {
        assert kr[i] == kd[i] && kr[j] == kd[j];
        assert kd[i] == d[i].0 && kd[j] == d[j].0;
      } else {
        assert kr[j] == k && kr[i] == kd[i];
      }
    }
  }

  /** An entry whose key the rest lacks keeps the keys distinct. */
  lemma ConsUnique(e: (string, Value), t: Row)
    requires UniqueKeys(t) && !HasKey(t, e.0)
    ensures UniqueKeys([e] + t)
  {
    forall j | 0 < j < |[e] + t| ensures ([e] + t)[j].0 != e.0 {
      assert ([e] + t)[j] == t[j - 1] && Keys(t)[j - 1] == t[j - 1].0;
    }
  }

  lemma ConsKeys(e: (string, Value), t: Row)
    ensures ([e] + t)[1..] == t
    ensures Keys([e] + t) == [e.0] + Keys(t)
    ensures forall k :: HasKey([e] + t, k) <==> k == e.0 || HasKey(t, k)
  {
    assert ([e] + t)[1..] == t;
  }

  /** Keeping the first entry of a dict in front of entries taken from the rest keeps keys distinct. */
  lemma KeepFirstUnique(d: Row, t: Row)
    requires d != [] && (UniqueKeys(d[1..]) ==> UniqueKeys(t))
    requires forall k :: HasKey(t, k) ==> HasKey(d[1..], k)
    ensures UniqueKeys(d) ==> UniqueKeys([d[0]] + t)
  {
    if UniqueKeys(d) {
      assert UniqueKeys(d[1..]);
      ConsUnique(d[0], t);
    }
  }

  /** The dict without key `k` (`del d[k]`, or `d.pop(k)` when the value is not needed). */
  function Remove(d: Row, k: string): (r: Row)
    ensures !HasKey(r, k)
    ensures forall k' :: k' != k ==> (HasKey(r, k') <==> HasKey(d, k'))
    ensures forall i :: 0 <= i < |r| ==> r[i] in d
    ensures UniqueKeys(d) ==> UniqueKeys(r)
  {
    if d == [] then []
    else
      var t := Remove(d[1..], k);
      RemoveStep(d, k, t);
      if d[0].0 == k then t else [d[0]] + t
  }

  /** What `Remove` promises, carried from the rest of a dict to the whole. */
  lemma RemoveStep(d: Row, k: string, t: Row)
    requires d != []
    requires !HasKey(t, k)
    requires forall k' :: k' != k ==> (HasKey(t, k') <==> HasKey(d[1..], k'))
    requires forall i :: 0 <= i < |t| ==> t[i] in d[1..]
    requires UniqueKeys(d[1..]) ==> UniqueKeys(t)
    ensures var r := if d[0].0 == k then t else [d[0]] + t;
      !HasKey(r, k)
      && (forall k' :: k' != k ==> (HasKey(r, k') <==> HasKey(d, k')))
      && (forall i :: 0 <= i < |r| ==> r[i] in d)
      && (UniqueKeys(d) ==> UniqueKeys(r))
  {
    ConsKeys(d[0], d[1..]);
    ConsKeys(d[0], t);
    assert d == [d[0]] + d[1..];
    if d[0].0 != k {
      KeepFirstUnique(d, t);
      forall i | 0 <= i < |[d[0]] + t| ensures ([d[0]] + t)[i] in d {
        if i > 0 {
          assert ([d[0]] + t)[i] == t[i - 1];
        }
      }
    } else if UniqueKeys(d) {
      assert UniqueKeys(d[1..]);
    }
  }

  /** A dict comprehension `{k: v for k, v in d.items() if k not in drop}`. */
  function RemoveAll(d: Row, drop: set<string>): (r: Row)
    ensures forall k :: HasKey(r, k) <==> HasKey(d, k) && k !in drop
    ensures forall i :: 0 <= i < |r| ==> r[i] in d
    ensures UniqueKeys(d) ==> UniqueKeys(r)
  {
    if d == [] then []
    else
      var t := RemoveAll(d[1..], drop);
      RemoveAllStep(d, drop, t);
      if d[0].0 in drop then t else [d[0]] + t
  }

  /** What `RemoveAll` promises, carried from the rest of a dict to the whole. */
  lemma RemoveAllStep(d: Row, drop: set<string>, t: Row)
    requires d != []
    requires forall k :: HasKey(t, k) <==> HasKey(d[1..], k) && k !in drop
    requires forall i :: 0 <= i < |t| ==> t[i] in d[1..]
    requires UniqueKeys(d[1..]) ==> UniqueKeys(t)
    ensures var r := if d[0].0 in drop then t else [d[0]] + t;
      (forall k :: HasKey(r, k) <==> HasKey(d, k) && k !in drop)
      && (forall i :: 0 <= i < |r| ==> r[i] in d)
      && (UniqueKeys(d) ==> UniqueKeys(r))
  {
    ConsKeys(d[0], d[1..]);
    ConsKeys(d[0], t);
    assert d == [d[0]] + d[1..];
    if d[0].0 !in drop {
      KeepFirstUnique(d, t);
      forall i | 0 <= i < |[d[0]] + t| ensures ([d[0]] + t)[i] in d {
        if i > 0 {
          assert ([d[0]] + t)[i] == t[i - 1];
        }
      }
    } else if UniqueKeys(d) {
      assert UniqueKeys(d[1..]);
    }
  }

  /** Removing a key leaves every other key's value as it was. */
  lemma {:induction false} RemoveGet(d: Row, k: string, k2: string)
    requires k2 != k
    ensures Get(Remove(d, k), k2) == Get(d, k2)
  {
    if d != [] {
      RemoveGet(d[1..], k, k2);
      if d[0].0 != k {
        assert ([d[0]] + Remove(d[1..], k))[1..] == Remove(d[1..], k);
      }
    }
  }

  /** Dropping keys leaves every kept key's value as it was. */
  lemma {:induction false} RemoveAllGet(d: Row, drop: set<string>, k: string)
    requires k !in drop
    ensures Get(RemoveAll(d, drop), k) == Get(d, k)
  {
    if d != [] {
      RemoveAllGet(d[1..], drop, k);
      if d[0].0 !in drop {
        assert ([d[0]] + RemoveAll(d[1..], drop))[1..] == RemoveAll(d[1..], drop);
      }
    }
  }

  /** `v.get(k)`: None when the key is missing; a value that is not a dict has no keys. */
  function Field(v: Value, k: string): Value
  {
    if v.VDict? then Get(v.entries, k) else VNone
  }

  /** `v.get(k, default)`. */
  function FieldOr(v: Value, k: string, default: Value): Value
  {
    if v.VDict? then GetOr(v.entries, k, default) else default
  }

  /** What a `for` loop over `v` visits: the elements of a list, nothing otherwise. */
  function Items(v: Value): seq<Value>
  {
    if v.VList? then v.items else []
  }

  /**
   * What a loop over a list of dicts visits: the entries of each dict; an
   * element that is not a dict reads as the empty dict.
   */
  function DictRows(v: Value): (rs: seq<Row>)
    ensures |rs| == |Items(v)|
    ensures forall i :: 0 <= i < |rs| ==> Items(v)[i].VDict? ==> rs[i] == Items(v)[i].entries
  {
    var xs := Items(v);
    seq(|xs|, i requires 0 <= i < |xs| => if xs[i].VDict? then xs[i].entries else [])
  }

  /** Python truthiness. */
  predicate Truthy(v: Value)
  {
    match v
    case VNone => false
    case VBool(b) => b
    case VNum(n) => n != 0.0
    case VStr(s) => s != []
    case VList(xs) => xs != []
    case VDict(xs) => xs != []
    case VTime(_) => true
  }

  function BoolNum(b: bool): real
  {
    if b then 1.0 else 0.0
  }

  /** A well-formed value: every dict in it has distinct keys. */
  predicate WellFormed(v: Value)
  {
    match v
    case VList(xs) => forall i :: 0 <= i < |xs| ==> WellFormed(xs[i])
    case VDict(xs) => UniqueKeys(xs) && forall i :: 0 <= i < |xs| ==> WellFormed(xs[i].1)
    case _ => true
  }

  /** A value read from a well-formed dict is well-formed. */
  lemma {:induction false} GetWellFormed(d: Row, k: string, default: Value)
    requires WellFormed(VDict(d)) && WellFormed(default)
    ensures WellFormed(GetOr(d, k, default))
  {
    if d != [] && d[0].0 != k {
      assert WellFormed(VDict(d[1..])) by {
        forall i | 0 <= i < |d[1..]| ensures WellFormed(d[1..][i].1) {
          assert d[1..][i] == d[i + 1];
        }
      }
      GetWellFormed(d[1..], k, default);
    }
  }

  /** The dicts of a well-formed list have distinct keys. */
  lemma DictRowsUnique(v: Value)
    requires WellFormed(v)
    ensures forall i :: 0 <= i < |DictRows(v)| ==> UniqueKeys(DictRows(v)[i])
  {
    forall i | 0 <= i < |DictRows(v)| ensures UniqueKeys(DictRows(v)[i]) {
      assert WellFormed(v.items[i]);
    }
  }

  /**
   * Python's `==` on these values: `True == 1` and `False == 0.0`, lists
   * element by element, dicts by their key sets and the values under each key.
   */
  predicate Same(a: Value, b: Value)
  {
    match a
    case VNone => b.VNone?
    case VBool(x) => (b.VBool? && b.b == x) || (b.VNum? && b.n == BoolNum(x))
    case VNum(x) => (b.VNum? && b.n == x) || (b.VBool? && x == BoolNum(b.b))
    case VStr(x) => b.VStr? && b.s == x
    case VList(xs) =>
      b.VList? && |xs| == |b.items| && forall i :: 0 <= i < |xs| ==> Same(xs[i], b.items[i])
    case VDict(xs) =>
      b.VDict? && |xs| == |b.entries|
      && (forall j :: 0 <= j < |b.entries| ==> HasKey(xs, b.entries[j].0))
      && forall i :: 0 <= i < |xs| ==>
           HasKey(b.entries, xs[i].0) && Same(xs[i].1, Get(b.entries, xs[i].0))
    case VTime(x) => b.VTime? && b.epochMs == x
  }

  lemma {:induction false} SameReflexive(a: Value)
    requires WellFormed(a)
    ensures Same(a, a)
  {
    match a
    case VList(xs) =>
      forall i | 0 <= i < |xs| ensures Same(xs[i], xs[i]) {
        SameReflexive(xs[i]);
      }
    case VDict(xs) =>
      forall i | 0 <= i < |xs| ensures HasKey(xs, xs[i].0) && Same(xs[i].1, Get(xs, xs[i].0)) {
        GetAt(xs, i);
        SameReflexive(xs[i].1);
      }
    case _ =>
  }
}
