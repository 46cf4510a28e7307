/**
 * The list-building shape of the converters: a loop appends, for each
 * element of an outer list, the rows an inner loop makes from it.
 */
module Flattening {
  /** `[f(x) for x in xs]`. */
  function Map<A, B>(xs: seq<A>, f: A -> B): (r: seq<B>)
    ensures |r| == |xs| && forall i :: 0 <= i < |xs| ==> r[i] == f(xs[i])
  {
    if xs == [] then [] else Map(xs[..|xs| - 1], f) + [f(xs[|xs| - 1])]
  }

  /** One more element maps to one more result. */
  lemma MapStep<A, B>(xs: seq<A>, f: A -> B, i: nat)
    requires i < |xs|
    ensures Map(xs[..i + 1], f) == Map(xs[..i], f) + [f(xs[i])]
  {
    assert xs[..i + 1][..i] == xs[..i];
  }

  /** `[x for x in xs if p(x)]`. */
  function Filter<T>(xs: seq<T>, p: T -> bool): (r: seq<T>)
    ensures |r| <= |xs|
  {
    if xs == [] then [] else Filter(xs[..|xs| - 1], p) + if p(xs[|xs| - 1]) then [xs[|xs| - 1]] else []
  }

  /** Every element `Filter` keeps is an element of `xs` that satisfies `p`. */
  lemma {:induction false} FilterSound<T>(xs: seq<T>, p: T -> bool)
    ensures forall i :: 0 <= i < |Filter(xs, p)| ==> Filter(xs, p)[i] in xs && p(Filter(xs, p)[i])
  {
    if xs != [] {
      var init, x := xs[..|xs| - 1], xs[|xs| - 1];
      FilterSound(init, p);
      assert xs == init + [x];
    }
  }

  /** `Filter` drops no element that satisfies `p`. */
  lemma {:induction false} FilterComplete<T>(xs: seq<T>, p: T -> bool)
    ensures forall i :: 0 <= i < |xs| && p(xs[i]) ==> xs[i] in Filter(xs, p)
  {
    if xs != [] {
      var init, x := xs[..|xs| - 1], xs[|xs| - 1];
      FilterComplete(init, p);
      assert xs == init + [x];
      forall i | 0 <= i < |xs| && p(xs[i]) ensures xs[i] in Filter(xs, p) {
        if i < |init| {
          assert init[i] == xs[i];
        }
      }
    }
  }

  /** The loop `for x in xs: if p(x): kept.append(x)`, one element further. */
  lemma FilterStep<T>(xs: seq<T>, p: T -> bool, j: nat)
    requires j < |xs|
    ensures Filter(xs[..j + 1], p) == if p(xs[j]) then Filter(xs[..j], p) + [xs[j]] else Filter(xs[..j], p)
  {
    assert xs[..j + 1][..j] == xs[..j];
    if !p(xs[j]) {
      assert Filter(xs[..j], p) + [] == Filter(xs[..j], p);
    }
  }

  lemma {:induction false} FilterAppend<T>(xs: seq<T>, ys: seq<T>, p: T -> bool)
    ensures Filter(xs + ys, p) == Filter(xs, p) + Filter(ys, p)
    decreases |ys|
  {
    if ys == [] {
      assert xs + ys == xs;
      assert Filter(xs, p) + [] == Filter(xs, p);
    } else {
      var n := |ys| - 1;
      assert (xs + ys)[..|xs + ys| - 1] == xs + ys[..n];
      FilterAppend(xs, ys[..n], p);
      if p(ys[n]) {
        assert Filter(xs, p) + Filter(ys[..n], p) + [ys[n]] == Filter(xs, p) + (Filter(ys[..n], p) + [ys[n]]);
      } else {
        assert Filter(ys[..n], p) + [] == Filter(ys[..n], p);
        assert Filter(xs, p) + Filter(ys[..n], p) + [] == Filter(xs, p) + Filter(ys[..n], p);
      }
    }
  }

  /**
   * `Filter` keeps the order: an element that passes lands right after the
   * elements kept before it, so elements kept earlier stand earlier.
   */
  lemma FilterPosition<T>(xs: seq<T>, p: T -> bool, i: nat)
    requires i < |xs| && p(xs[i])
    ensures |Filter(xs[..i], p)| < |Filter(xs, p)| && Filter(xs, p)[|Filter(xs[..i], p)|] == xs[i]
  {
    assert xs == xs[..i + 1] + xs[i + 1..];
    FilterAppend(xs[..i + 1], xs[i + 1..], p);
    FilterStep(xs, p, i);
  }

  /** Elements before a kept element are kept before it. */
  lemma FilterMonotone<T>(xs: seq<T>, p: T -> bool, i: nat, j: nat)
    requires i < j <= |xs| && p(xs[i])
    ensures |Filter(xs[..i], p)| < |Filter(xs[..j], p)|
  {
    var ys := xs[..j];
    assert ys[..i] == xs[..i];
    FilterPosition(ys, p, i);
  }

  /** `Map` over one more element. */
  lemma MapSnoc<A, B>(xs: seq<A>, x: A, f: A -> B)
    ensures Map(xs + [x], f) == Map(xs, f) + [f(x)]
  {
    assert (xs + [x])[..|xs|] == xs;
  }

  lemma AppendAssoc<T>(a: seq<T>, b: seq<T>, c: seq<T>)
    ensures a + (b + c) == (a + b) + c
  {
  }

  /** A loop that has built `xs[..j]` builds `xs[..j + 1]` by appending `xs[j]`. */
  lemma Extend<T>(rows: seq<T>, xs: seq<T>, j: nat, x: T)
    requires j < |xs| && rows == xs[..j] && x == xs[j]
    ensures rows + [x] == xs[..j + 1]
  {
    assert xs[..j + 1] == xs[..j] + [xs[j]];
  }

  /** An element of either part is an element of the concatenation. */
  lemma InAppend<T>(x: T, a: seq<T>, b: seq<T>)
    requires x in a
    ensures x in a + b
  {
    var j :| 0 <= j < |a| && a[j] == x;
    assert (a + b)[j] == x;
  }

  lemma InAppendRight<T>(x: T, a: seq<T>, b: seq<T>)
    requires x in b
    ensures x in a + b
  {
    var j :| 0 <= j < |b| && b[j] == x;
    assert (a + b)[|a| + j] == x;
  }

  lemma TakeAll<T>(xs: seq<T>)
    ensures xs[..|xs|] == xs
  {
  }

  /** The lists of `ss` one after another. */
  function Flatten<T>(ss: seq<seq<T>>): seq<T>
  {
    if ss == [] then [] else Flatten(ss[..|ss| - 1]) + ss[|ss| - 1]
  }

  /** Where the rows of `ss[i]` start in `Flatten(ss)`. */
  function Offset<T>(ss: seq<seq<T>>, i: nat): nat
    requires i <= |ss|
  {
    |Flatten(ss[..i])|
  }

  /** One more outer element appends its inner list. */
  lemma FlattenStep<A, T>(xs: seq<A>, f: A -> seq<T>, i: nat)
    requires i < |xs|
    ensures Flatten(Map(xs[..i + 1], f)) == Flatten(Map(xs[..i], f)) + f(xs[i])
  {
    var m := Map(xs[..i + 1], f);
    assert m[..i] == Map(xs[..i], f);
  }

  lemma {:induction false} FlattenAppend<T>(ss: seq<seq<T>>, ts: seq<seq<T>>)
    ensures Flatten(ss + ts) == Flatten(ss) + Flatten(ts)
    decreases |ts|
  {
    if ts == [] {
      assert ss + ts == ss;
    } else {
      var n := |ts| - 1;
      assert (ss + ts)[..|ss + ts| - 1] == ss + ts[..n];
      FlattenAppend(ss, ts[..n]);
    }
  }

  /**
   * `Flatten` keeps every inner list whole and in order: the `j`-th row of
   * `ss[i]` sits at `Offset(ss, i) + j`, after the rows of `ss[..i]`.
   */
  lemma FlattenAt<T>(ss: seq<seq<T>>, i: nat, j: nat)
    requires i < |ss| && j < |ss[i]|
    ensures Offset(ss, i) + j < |Flatten(ss)| && Flatten(ss)[Offset(ss, i) + j] == ss[i][j]
  {
    assert ss == ss[..i] + [ss[i]] + ss[i + 1..];
    FlattenAppend(ss[..i] + [ss[i]], ss[i + 1..]);
    FlattenAppend(ss[..i], [ss[i]]);
    assert Flatten([ss[i]]) == ss[i] by {
      assert [ss[i]][..0] == [];
    }
  }

  /** `FlattenAt` for the lists a function makes from each element of `xs`. */
  lemma FlattenMapAt<A, T>(xs: seq<A>, f: A -> seq<T>, i: nat, j: nat)
    requires i < |xs| && j < |f(xs[i])|
    ensures var ss := Map(xs, f);
      Offset(ss, i) + j < |Flatten(ss)| && Flatten(ss)[Offset(ss, i) + j] == f(xs[i])[j]
  {
    var ss := Map(xs, f);
    var row := f(xs[i]);
    assert ss[i] == row;
    FlattenAt(ss, i, j);
    assert ss[i][j] == row[j];
  }

  /** Every row of `Flatten(ss)` comes from some inner list. */
  lemma {:induction false} FlattenFrom<T>(ss: seq<seq<T>>, x: T)
    requires x in Flatten(ss)
    ensures exists i :: 0 <= i < |ss| && x in ss[i]
  {
    var n := |ss| - 1;
    if x !in ss[n] {
      FlattenFrom(ss[..n], x);
      var i :| 0 <= i < n && x in ss[..n][i];
      assert ss[..n][i] == ss[i];
    }
  }

  /** `Flatten` over one more inner list. */
  lemma FlattenTake<T>(ss: seq<seq<T>>, i: nat)
    requires i < |ss|
    ensures Flatten(ss[..i + 1]) == Flatten(ss[..i]) + ss[i]
  {
    assert ss[..i + 1][..i] == ss[..i];
  }

  /** Every row of every inner list is a row of `Flatten(ss)`. */
  lemma {:induction false} FlattenIn<T>(ss: seq<seq<T>>, i: nat, x: T)
    requires i < |ss| && x in ss[i]
    ensures x in Flatten(ss)
  {
    var n := |ss| - 1;
    if i < n {
      assert ss[..n][i] == ss[i];
      FlattenIn(ss[..n], i, x);
      InAppend(x, Flatten(ss[..n]), ss[n]);
    } else {
      InAppendRight(x, Flatten(ss[..n]), ss[n]);
    }
  }

  /** The elements of `xs` whose flag is set, in order. */
  function Pick<T>(xs: seq<T>, keep: seq<bool>): (r: seq<T>)
    requires |keep| == |xs|
    ensures |r| <= |xs|
  {
    if xs == [] then []
    else Pick(xs[..|xs| - 1], keep[..|xs| - 1]) + if keep[|xs| - 1] then [xs[|xs| - 1]] else []
  }

  /** The loop `for x in xs: if keep: out.append(x)`, one element further. */
  lemma PickStep<T>(xs: seq<T>, keep: seq<bool>, i: nat)
    requires |keep| == |xs| && i < |xs|
    ensures Pick(xs[..i + 1], keep[..i + 1]) == Pick(xs[..i], keep[..i]) + if keep[i] then [xs[i]] else []
  {
    assert xs[..i + 1][..i] == xs[..i];
    assert keep[..i + 1][..i] == keep[..i];
  }

  /** Every picked element is one whose flag is set. */
  lemma {:induction false} PickFrom<T>(xs: seq<T>, keep: seq<bool>, x: T)
    requires |keep| == |xs| && x in Pick(xs, keep)
    ensures exists i :: 0 <= i < |xs| && keep[i] && xs[i] == x
  {
    var n := |xs| - 1;
    if x in Pick(xs[..n], keep[..n]) {
      PickFrom(xs[..n], keep[..n], x);
      var i :| 0 <= i < n && keep[..n][i] && xs[..n][i] == x;
      assert keep[i] && xs[i] == x;
    }
  }

  /** Every element whose flag is set is picked. */
  lemma {:induction false} PickIn<T>(xs: seq<T>, keep: seq<bool>, i: nat)
    requires |keep| == |xs| && i < |xs| && keep[i]
    ensures xs[i] in Pick(xs, keep)
  {
    var n := |xs| - 1;
    var pre := Pick(xs[..n], keep[..n]);
    if i < n {
      assert xs[..n][i] == xs[i] && keep[..n][i];
      PickIn(xs[..n], keep[..n], i);
      InAppend(xs[i], pre, if keep[n] then [xs[n]] else []);
    } else {
      InAppendRight(xs[i], pre, [xs[n]]);
    }
  }

  /** The number of rows is the sum of the inner lengths. */
  function SumLengths<T>(ss: seq<seq<T>>): nat
  {
    if ss == [] then 0 else SumLengths(ss[..|ss| - 1]) + |ss[|ss| - 1]|
  }

  lemma {:induction false} FlattenLength<T>(ss: seq<seq<T>>)
    ensures |Flatten(ss)| == SumLengths(ss)
  {
    if ss != [] {
      FlattenLength(ss[..|ss| - 1]);
    }
  }
}
