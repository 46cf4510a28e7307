/**
 * A Python dict whose values carry their own key, as an insertion-ordered
 * list: `d[key(x)] = x` replaces the entry with that key where it stands,
 * or appends a new one. The loader fills its recipe, item and order dicts
 * this way.
 */
module KeyedLists {
  import opened Wrappers

  /** The keys of `xs`, in order (`list(d.keys())`). */
  function KeysOf<T>(xs: seq<T>, key: T -> string): (ks: seq<string>)
    ensures |ks| == |xs| && forall i :: 0 <= i < |xs| ==> ks[i] == key(xs[i])
  {
    if xs == [] then [] else [key(xs[0])] + KeysOf(xs[1..], key)
  }

  /** No two entries share a key. */
  predicate UniqueBy<T>(xs: seq<T>, key: T -> string)
  {
    forall i, j :: 0 <= i < j < |xs| ==> key(xs[i]) != key(xs[j])
  }

  /** `d.get(k)`: the first entry with key `k`. */
  function LookupBy<T>(xs: seq<T>, key: T -> string, k: string): (r: Option<T>)
    ensures r.Some? <==> k in KeysOf(xs, key)
    ensures r.Some? ==> r.value in xs && key(r.value) == k
  {
    if xs == [] then None
    else if key(xs[0]) == k then Some(xs[0])
    else LookupBy(xs[1..], key, k)
  }

  lemma KeysCons<T>(a: T, ys: seq<T>, key: T -> string)
    ensures KeysOf([a] + ys, key) == [key(a)] + KeysOf(ys, key)
  {
    assert ([a] + ys)[1..] == ys;
  }

  /** `d[key(x)] = x`: an existing key keeps its place, a new key goes last. */
  function PutBy<T>(xs: seq<T>, key: T -> string, x: T): (r: seq<T>)
    ensures KeysOf(r, key) == if key(x) in KeysOf(xs, key) then KeysOf(xs, key) else KeysOf(xs, key) + [key(x)]
    ensures forall e :: e in r ==> e == x || e in xs
  {
    if xs == [] then [x]
    else if key(xs[0]) == key(x) then
      KeysCons(x, xs[1..], key);
      KeysCons(xs[0], xs[1..], key);
      assert [xs[0]] + xs[1..] == xs;
      assert KeysOf(xs, key)[0] == key(x);
      [x] + xs[1..]
    else
      var rest := PutBy(xs[1..], key, x);
      KeysCons(xs[0], rest, key);
      KeysCons(xs[0], xs[1..], key);
      assert [xs[0]] + xs[1..] == xs;
      assert key(x) in KeysOf(xs, key) <==> key(x) in KeysOf(xs[1..], key);
      [xs[0]] + rest
  }

  lemma {:induction false} PutByLookup<T>(xs: seq<T>, key: T -> string, x: T, k: string)
    ensures LookupBy(PutBy(xs, key, x), key, k) == if k == key(x) then Some(x) else LookupBy(xs, key, k)
  {
    if xs != [] && key(xs[0]) != key(x) {
      PutByLookup(xs[1..], key, x, k);
      assert PutBy(xs, key, x)[1..] == PutBy(xs[1..], key, x);
    }
  }

  lemma PutByUnique<T>(xs: seq<T>, key: T -> string, x: T)
    requires UniqueBy(xs, key)
    ensures UniqueBy(PutBy(xs, key, x), key)
  {
    var r := PutBy(xs, key, x);
    var ks, kr := KeysOf(xs, key), KeysOf(r, key);
    forall i, j | 0 <= i < j < |r| ensures key(r[i]) != key(r[j]) {
      assert key(r[i]) == kr[i] && key(r[j]) == kr[j];
      if j < |xs| {
        assert kr[i] == ks[i] && kr[j] == ks[j];
      } else {
        assert kr[j] == key(x) && key(x) !in ks;
      }
    }
  }

  /** A dict filled by `d[key(x)] = x` for each `x` of `xs` in turn. */
  function PutAll<T>(xs: seq<T>, key: T -> string): seq<T>
  {
    if xs == [] then [] else PutBy(PutAll(xs[..|xs| - 1], key), key, xs[|xs| - 1])
  }

  /** The last entry of `xs` with key `k`. */
  function LastWith<T>(xs: seq<T>, key: T -> string, k: string): (r: Option<T>)
    ensures r.Some? ==> r.value in xs && key(r.value) == k
    ensures r.None? <==> forall i :: 0 <= i < |xs| ==> key(xs[i]) != k
  {
    if xs == [] then None
    else if key(xs[|xs| - 1]) == k then Some(xs[|xs| - 1])
    else LastWith(xs[..|xs| - 1], key, k)
  }

  lemma PutAllSnoc<T>(xs: seq<T>, key: T -> string, x: T)
    ensures PutAll(xs + [x], key) == PutBy(PutAll(xs, key), key, x)
  {
    assert (xs + [x])[..|xs|] == xs;
  }

  /** Filling a dict keeps, for every key, the last value written under it, and nothing else. */
  lemma {:induction false} PutAllLast<T>(xs: seq<T>, key: T -> string, k: string)
    ensures LookupBy(PutAll(xs, key), key, k) == LastWith(xs, key, k)
    ensures UniqueBy(PutAll(xs, key), key)
    ensures forall e :: e in PutAll(xs, key) ==> e in xs
  {
    if xs != [] {
      var init := xs[..|xs| - 1];
      PutAllLast(init, key, k);
      PutByLookup(PutAll(init, key), key, xs[|xs| - 1], k);
      PutByUnique(PutAll(init, key), key, xs[|xs| - 1]);
      forall e | e in PutAll(xs, key) ensures e in xs {
        if e != xs[|xs| - 1] {
          assert e in init;
        }
      }
    }
  }

  lemma AppendStep<T>(prior: seq<T>, xs: seq<T>, i: nat)
    requires i < |xs|
    ensures prior + xs[..i + 1] == (prior + xs[..i]) + [xs[i]]
  {
    assert xs[..i + 1] == xs[..i] + [xs[i]];
  }

  /** The loop `for x in xs: d[key(x)] = x`, on a dict already filled from `prior`. */
  method PutMore<T>(d0: seq<T>, ghost prior: seq<T>, xs: seq<T>, key: T -> string) returns (d: seq<T>)
    requires d0 == PutAll(prior, key)
    ensures d == PutAll(prior + xs, key)
  {
    d := d0;
    assert prior + xs[..0] == prior;
    for i := 0 to |xs|
      invariant d == PutAll(prior + xs[..i], key)
    {
      AppendStep(prior, xs, i);
      PutAllSnoc(prior + xs[..i], key, xs[i]);
      d := PutBy(d, key, xs[i]);
    }
    assert xs[..|xs|] == xs;
  }

  /** The loop `for x in xs: d[key(x)] = x`, starting from an empty dict. */
  method PutEach<T>(xs: seq<T>, key: T -> string) returns (d: seq<T>)
    ensures d == PutAll(xs, key)
    ensures UniqueBy(d, key)
    ensures forall k :: LookupBy(d, key, k) == LastWith(xs, key, k)
    ensures forall e :: e in d ==> e in xs
  {
    assert [] + xs == xs;
    d := PutMore([], [], xs, key);
    forall k ensures LookupBy(d, key, k) == LastWith(xs, key, k) {
      PutAllLast(xs, key, k);
    }
    PutAllLast(xs, key, "");
  }

  /**
   * `{k: v for k, v in pairs}`, looked up at `key`: the value of the last
   * pair with that key.
   */
  function LastKeyed<K(==), T>(pairs: seq<(K, T)>, key: K): (r: Option<T>)
    ensures r.Some? ==> exists i :: 0 <= i < |pairs| && pairs[i] == (key, r.value)
  {
    if pairs == [] then None
    else if pairs[|pairs| - 1].0 == key then Some(pairs[|pairs| - 1].1)
    else
      var init := pairs[..|pairs| - 1];
      var r := LastKeyed(init, key);
      assert r.Some? ==> exists i :: 0 <= i < |init| && init[i] == (key, r.value) && pairs[i] == init[i];
      r
  }

  /** Every key of some pair is stored. */
  lemma {:induction false} LastKeyedFound<K, T>(pairs: seq<(K, T)>, i: nat)
    requires i < |pairs|
    ensures LastKeyed(pairs, pairs[i].0).Some?
  {
    var n := |pairs| - 1;
    if i < n && pairs[n].0 != pairs[i].0 {
      LastKeyedFound(pairs[..n], i);
      assert pairs[..n][i] == pairs[i];
    }
  }
}
