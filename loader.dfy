/**
 * The static-data loader of the simulation: the recipe-name parser, the
 * loops that group building costs and workforces per building, the recipe
 * catalogue keyed by its standard name, and the linking of production
 * orders to the building instance that runs them.
 */
module DataLoader {
  import opened Wrappers
  import opened PyStrings
  import opened PyValues
  import opened PlannerModel
  import opened KeyedLists

  function ItemTicker(i: RecipeItem): string
  {
    i.ticker
  }

  // ---------------------------------------------------------------------
  // Recipe names such as "FP:20xH2O=>14xDW"
  // ---------------------------------------------------------------------

  /**
   * One item of a side: after stripping it must contain 'x'; the text before
   * the first 'x' is the amount and must read as an integer, the stripped
   * text after it is the ticker. Anything else is dropped.
   */
  function ParseItem(item: string): Option<RecipeItem>
  {
    ItemOf(Strip(item))
  }

  /** The item a stripped text denotes, split at its first 'x'. */
  function ItemOf(it: string): Option<RecipeItem>
  {
    if 'x' !in it then None
    else
      var k := IndexOf(it, 'x');
      match ParseInt(Strip(it[..k]))
      case None => None
      case Some(n) => Some(RecipeItem(Strip(it[k + 1..]), n))
  }

  /** Whatever follows the first 'x' is the ticker, whatever precedes it the amount. */
  lemma ItemOfSplit(a: string, t: string)
    requires 'x' !in a
    ensures ItemOf(a + "x" + t) == match ParseInt(Strip(a))
                                   case None => None
                                   case Some(n) => Some(RecipeItem(Strip(t), n))
  {
    IndexAfter(a, t);
    CutAtX(a, t);
  }

  /** `it == a + "x" + b` with `a` free of 'x': the split of `it` at its first 'x'. */
  predicate SplitAtX(it: string, a: string, b: string)
  {
    it == a + "x" + b && 'x' !in a
  }

  lemma SplitAround(s: string, k: nat)
    requires k < |s|
    ensures s == s[..k] + [s[k]] + s[k + 1..]
  {
  }

  /** A parsed item is the text either side of the first 'x': an integer amount, then the ticker. */
  lemma ParseItemFound(item: string)
    requires ParseItem(item).Some?
    ensures exists a, b {:trigger SplitAtX(Strip(item), a, b)} :: (SplitAtX(Strip(item), a, b)
                            && ParseInt(Strip(a)) == Some(ParseItem(item).value.amount)
                            && ParseItem(item).value.ticker == Strip(b))
  {
    var it := Strip(item);
    var k := IndexOf(it, 'x');
    var a, b := it[..k], it[k + 1..];
    SplitAround(it, k);
    assert it == a + "x" + b;
    ItemOfSplit(a, b);
    var r := ItemOf(a + "x" + b).value;
    assert ParseItem(item).value == r;
    assert SplitAtX(Strip(item), a, b) && ParseInt(Strip(a)) == Some(ParseItem(item).value.amount)
           && ParseItem(item).value.ticker == Strip(b);
  }

  /** An item is dropped exactly when it has no 'x' or its amount is not an integer. */
  lemma ParseItemDropped(item: string)
    ensures ParseItem(item).None? <==>
              ('x' !in Strip(item) || ParseInt(Strip(Strip(item)[..IndexOf(Strip(item), 'x')])).None?)
  {
  }

  /** The items of one side that parse, in order. */
  function ParsedItems(parts: seq<string>): (r: seq<RecipeItem>)
    ensures |r| <= |parts|
    ensures forall e :: e in r ==> exists j :: 0 <= j < |parts| && ParseItem(parts[j]) == Some(e)
  {
    if parts == [] then []
    else
      var init := ParsedItems(parts[..|parts| - 1]);
      assert forall j :: 0 <= j < |parts| - 1 ==> parts[..|parts| - 1][j] == parts[j];
      match ParseItem(parts[|parts| - 1])
      case None => init
      case Some(it) => init + [it]
  }

  /** One side of a recipe: the items between '-' separators, each ticker keeping its last amount. */
  function ParseSide(s: string): seq<RecipeItem>
  {
    PutAll(ParsedItems(Split(s, '-')), ItemTicker)
  }

  /** The stripped text after the first ':', or "" when there is none. */
  function RecipeBody(s: string): string
  {
    var parts := SplitOnce(s, ":");
    if |parts| > 1 then Strip(parts[1]) else ""
  }

  /** The three texts of a recipe name: its ticker, its inputs side and its outputs side. */
  function RecipeNameParts(s: string): (string, string, string)
  {
    var io := SplitOnce(RecipeBody(s), "=>");
    (Strip(SplitOnce(s, ":")[0]), Strip(io[0]), if |io| > 1 then Strip(io[1]) else "")
  }

  /** `_parse_recipe_name_components`: building ticker, inputs and outputs. */
  function ParseRecipeName(v: Value): (r: (string, seq<RecipeItem>, seq<RecipeItem>))
    ensures !v.VStr? ==> r == ("", [], [])
  {
    match v
    case VStr(s) =>
      var parts := RecipeNameParts(s);
      (parts.0, ParseSide(parts.1), ParseSide(parts.2))
    case _ => ("", [], [])
  }

  lemma EmptySide()
    ensures ParseSide("") == []
  {
    SplitOnceChar("", '-');
    assert Split("", '-') == [""];
    assert ParseItem("") == None;
    assert ParsedItems([""]) == [];
  }

  /** With an empty body, both sides are empty. */
  lemma EmptyBody()
    ensures SplitOnce("", "=>") == [""]
    ensures Strip("") == ""
  {
    assert !Contains("", "=>");
  }

  /** A name whose sides are both empty texts has no items. */
  lemma NoItems(s: string)
    requires RecipeNameParts(s).1 == "" && RecipeNameParts(s).2 == ""
    ensures ParseRecipeName(VStr(s)) == (RecipeNameParts(s).0, [], [])
  {
    EmptySide();
  }

  /**
   * The ticker is the stripped text before the first ':'. Without a ':' the
   * whole stripped string is the ticker and both sides are empty.
   */
  lemma ParseRecipeNameTicker(s: string)
    ensures ':' in s ==> ParseRecipeName(VStr(s)).0 == Strip(s[..IndexOf(s, ':')])
    ensures ':' !in s ==> ParseRecipeName(VStr(s)) == (Strip(s), [], [])
  {
    SplitOnceChar(s, ':');
    assert ":" == [':'];
    if ':' !in s {
      assert RecipeBody(s) == "";
      EmptyBody();
      NoItems(s);
    }
  }

  /** `s == l + sep + rest` with no `sep` starting inside `l`: the cut at the first `sep`. */
  predicate FirstSplit(s: string, sep: string, l: string, rest: string)
  {
    s == l + sep + rest && forall j: nat :: j < |l| ==> !OccursAt(s, sep, j)
  }

  /** Without "=>" in the body, the body is all inputs and there are no outputs. */
  lemma ParseRecipeNameNoArrow(s: string)
    requires !Contains(RecipeBody(s), "=>")
    ensures ParseRecipeName(VStr(s)).1 == ParseSide(RecipeBody(s))
    ensures ParseRecipeName(VStr(s)).2 == []
  {
    var io := SplitOnce(RecipeBody(s), "=>");
    assert |io| == 1 && io[0] == RecipeBody(s);
    StripOfStripped(s);
    EmptyBody();
    EmptySide();
    assert RecipeNameParts(s).1 == RecipeBody(s) && RecipeNameParts(s).2 == "";
  }

  /**
   * The body is cut at its first "=>": the text on the left is the inputs
   * side and the text on the right the outputs side, each stripped.
   */
  lemma ParseRecipeNameArrow(s: string)
    requires Contains(RecipeBody(s), "=>")
    ensures exists l, rest {:trigger FirstSplit(RecipeBody(s), "=>", l, rest)} ::
              (FirstSplit(RecipeBody(s), "=>", l, rest)
               && RecipeNameParts(s).1 == Strip(l)
               && RecipeNameParts(s).2 == Strip(rest))
  {
    var io := SplitOnce(RecipeBody(s), "=>");
    assert FirstSplit(RecipeBody(s), "=>", io[0], io[1]);
  }

  /** The body is already stripped. */
  lemma StripOfStripped(s: string)
    ensures Strip(RecipeBody(s)) == RecipeBody(s)
  {
    var parts := SplitOnce(s, ":");
    if |parts| > 1 {
      StripIdempotent(parts[1]);
    } else {
      EmptyBody();
    }
  }

  lemma IndexAfter(a: string, t: string)
    requires 'x' !in a
    ensures IndexOf(a + "x" + t, 'x') == |a|
  {
    var w := a + "x" + t;
    assert w[..|a|] == a;
    IndexOfAt(w, 'x', |a|);
  }

  /** `"<n>x<ticker>"`, the way a recipe name writes an item, parses back to that item. */
  lemma ParseWrittenItem(n: int, t: string)
    requires forall i :: 0 <= i < |t| ==> !IsSpace(t[i])
    ensures ParseItem(IntToString(n) + "x" + t) == Some(RecipeItem(t, n))
  {
    var a := IntToString(n);
    IntToStringChars(n);
    assert 'x' !in a;
    StripWritten(a, t);
    IntRoundTrip(n);
    ItemOfSplit(a, t);
  }

  /** Text without whitespace, joined by 'x', strips to itself, as do its two halves. */
  lemma StripWritten(a: string, t: string)
    requires forall i :: 0 <= i < |a| ==> !IsSpace(a[i])
    requires forall i :: 0 <= i < |t| ==> !IsSpace(t[i])
    ensures Strip(a + "x" + t) == a + "x" + t && Strip(a) == a && Strip(t) == t
  {
    var it := a + "x" + t;
    forall i | 0 <= i < |it| ensures !IsSpace(it[i]) {
      if i < |a| { assert it[i] == a[i]; }
      else if i > |a| { assert it[i] == t[i - |a| - 1]; }
    }
    StripNoSpace(it);
    StripNoSpace(a);
    StripNoSpace(t);
  }

  lemma CutAtX(a: string, t: string)
    ensures (a + "x" + t)[..|a|] == a && (a + "x" + t)[|a| + 1..] == t
  {
  }

  /** A side without '-' is a single item, kept when it parses. */
  lemma SingleItemSide(it: string)
    requires '-' !in it
    ensures ParseItem(it).None? ==> ParseSide(it) == []
    ensures ParseItem(it).Some? ==> ParseSide(it) == [ParseItem(it).value]
  {
    var parts := Split(it, '-');
    assert parts == [it];
    var p := ParseItem(it);
    var items := ParsedItems(parts);
    assert parts[..0] == [];
    assert items == if p.Some? then [p.value] else [];
    if p.Some? {
      assert items[..0] == [];
      assert PutAll(items, ItemTicker) == PutBy([], ItemTicker, p.value);
    }
  }

  /** A side holding one written item is that item alone. */
  lemma ParseWrittenSide(n: nat, t: string)
    requires forall i :: 0 <= i < |t| ==> !IsSpace(t[i]) && t[i] != '-'
    ensures ParseSide(IntToString(n) + "x" + t) == [RecipeItem(t, n)]
  {
    IntToStringChars(n);
    NoDash(IntToString(n), t);
    ParseWrittenItem(n, t);
    SingleItemSide(IntToString(n) + "x" + t);
  }

  lemma NoDash(a: string, t: string)
    requires '-' !in a && '-' !in t
    ensures '-' !in a + "x" + t
  {
  }

  lemma SmallNumerals()
    ensures IntToString(1) == "1" && IntToString(14) == "14" && IntToString(20) == "20"
  {
    assert NatToDigits(14) == NatToDigits(1) + [DigitChar(4)];
    assert NatToDigits(20) == NatToDigits(2) + [DigitChar(0)];
  }

  /** No whitespace anywhere in `s`. */
  predicate Plain(s: string)
  {
    forall i :: 0 <= i < |s| ==> !IsSpace(s[i])
  }

  lemma PlainJoin(a: string, sep: string, b: string)
    requires Plain(a) && Plain(sep) && Plain(b)
    ensures Plain(a + sep + b)
  {
    var s := a + sep + b;
    forall i | 0 <= i < |s| ensures !IsSpace(s[i]) {
      if i < |a| { assert s[i] == a[i]; }
      else if i < |a| + |sep| { assert s[i] == sep[i - |a|]; }
      else { assert s[i] == b[i - |a| - |sep|]; }
    }
  }

  /** The text `"<n>x<t>"` of one written item. */
  function Written(n: nat, t: string): string
  {
    IntToString(n) + "x" + t
  }

  lemma WrittenChars(n: nat, t: string)
    requires Plain(t) && '=' !in t
    ensures Plain(Written(n, t)) && '=' !in Written(n, t)
  {
    IntToStringChars(n);
    assert Plain(IntToString(n)) && Plain("x");
    PlainJoin(IntToString(n), "x", t);
  }

  /**
   * A recipe name written as `ticker:<n>x<t>=><m>x<u>` parses back to its
   * ticker, its one input and its one output.
   */
  lemma ParseWrittenRecipe(ticker: string, n: nat, t: string, m: nat, u: string)
    requires Plain(ticker) && ':' !in ticker
    requires Plain(t) && '-' !in t && '=' !in t
    requires Plain(u) && '-' !in u && '=' !in u
    ensures ParseRecipeName(VStr(ticker + ":" + (Written(n, t) + "=>" + Written(m, u))))
            == (ticker, [RecipeItem(t, n)], [RecipeItem(u, m)])
  {
    WrittenChars(n, t);
    WrittenChars(m, u);
    PartsOfWritten(ticker, Written(n, t), Written(m, u));
    ParseWrittenSide(n, t);
    ParseWrittenSide(m, u);
  }

  /** The texts of `ticker:<left>=><right>` when nothing in them needs stripping. */
  lemma PartsOfWritten(ticker: string, l: string, r: string)
    requires Plain(ticker) && ':' !in ticker
    requires Plain(l) && '=' !in l && Plain(r)
    ensures RecipeNameParts(ticker + ":" + (l + "=>" + r)) == (ticker, l, r)
  {
    var body := l + "=>" + r;
    SplitOnceFirst(ticker, ":", body);
    assert Plain("=>");
    PlainJoin(l, "=>", r);
    StripNoSpace(ticker);
    StripNoSpace(body);
    StripNoSpace(l);
    StripNoSpace(r);
    assert RecipeBody(ticker + ":" + body) == body;
    SplitOnceFirst(l, "=>", r);
  }

  /** A recipe name written as `ticker:=>` has no inputs and no outputs. */
  lemma ParseEmptyRecipe(ticker: string)
    requires Plain(ticker) && ':' !in ticker
    ensures ParseRecipeName(VStr(ticker + ":" + "=>")) == (ticker, [], [])
  {
    assert "=>" == "" + "=>" + "";
    PartsOfWritten(ticker, "", "");
    NoItems(ticker + ":" + "=>");
  }

  /** The first docstring example: "FP:20xH2O=>14xDW" is FP making 14 DW from 20 H2O. */
  lemma FoodProcessorExample()
    ensures ParseRecipeName(VStr("FP:20xH2O=>14xDW")) == ("FP", [RecipeItem("H2O", 20)], [RecipeItem("DW", 14)])
  {
    SmallNumerals();
    assert "FP:20xH2O=>14xDW" == "FP" + ":" + (Written(20, "H2O") + "=>" + Written(14, "DW"));
    ParseWrittenRecipe("FP", 20, "H2O", 14, "DW");
  }

  /** The second docstring example: "RIG:=>" has ticker RIG and no items. */
  lemma RigExample()
    ensures ParseRecipeName(VStr("RIG:=>")) == ("RIG", [], [])
  {
    assert "RIG:=>" == "RIG" + ":" + "=>";
    ParseEmptyRecipe("RIG");
  }

  /** `'+'` does not separate items: "1xA+2xB" is one item with ticker "A+2xB". */
  lemma PlusIsNotASeparator()
    ensures ParseSide("1xA+2xB") == [RecipeItem("A+2xB", 1)]
  {
    SmallNumerals();
    assert "1xA+2xB" == IntToString(1) + "x" + "A+2xB";
    ParseWrittenSide(1, "A+2xB");
  }

  /** On each side, a repeated ticker keeps its last amount and tickers are distinct. */
  lemma ParseSideLastAmount(s: string, t: string)
    ensures LookupBy(ParseSide(s), ItemTicker, t) == LastWith(ParsedItems(Split(s, '-')), ItemTicker, t)
    ensures UniqueBy(ParseSide(s), ItemTicker)
  {
    PutAllLast(ParsedItems(Split(s, '-')), ItemTicker, t);
  }

  /** The loop over one side's items, filling the side's dict. */
  method ParseSideItems(s: string) returns (d: seq<RecipeItem>)
    ensures d == ParseSide(s)
    ensures UniqueBy(d, ItemTicker)
  {
    var parts := Split(s, '-');
    d := [];
    for i := 0 to |parts|
      invariant d == PutAll(ParsedItems(parts[..i]), ItemTicker)
    {
      assert parts[..i + 1][..i] == parts[..i];
      match ParseItem(parts[i]) {
        case None =>
        case Some(it) =>
          PutAllSnoc(ParsedItems(parts[..i]), ItemTicker, it);
          d := PutBy(d, ItemTicker, it);
      }
    }
    assert parts[..|parts|] == parts;
    PutAllLast(ParsedItems(parts), ItemTicker, "");
  }

  method ParseRecipeNameComponents(v: Value) returns (ticker: string, inputs: seq<RecipeItem>, outputs: seq<RecipeItem>)
    ensures (ticker, inputs, outputs) == ParseRecipeName(v)
    ensures UniqueBy(inputs, ItemTicker) && UniqueBy(outputs, ItemTicker)
  {
    if !v.VStr? {
      return "", [], [];
    }
    var s := v.s;
    ticker := Strip(SplitOnce(s, ":")[0]);
    var io := SplitOnce(RecipeBody(s), "=>");
    var ins := Strip(io[0]);
    var outs := if |io| > 1 then Strip(io[1]) else "";
    inputs := ParseSideItems(ins);
    outputs := ParseSideItems(outs);
  }

  // ---------------------------------------------------------------------
  // Grouping per building
  // ---------------------------------------------------------------------

  /** The values filed under `k`, in input order. */
  function GroupOf<T>(entries: seq<(string, T)>, k: string): (g: seq<T>)
    ensures |g| <= |entries|
  {
    if entries == [] then []
    else
      var last := entries[|entries| - 1];
      GroupOf(entries[..|entries| - 1], k) + (if last.0 == k then [last.1] else [])
  }

  /** A value is in the group of `k` exactly when it was filed under `k`. */
  lemma {:induction false} GroupOfMembers<T>(entries: seq<(string, T)>, k: string, x: T)
    ensures x in GroupOf(entries, k) <==> exists i :: 0 <= i < |entries| && entries[i] == (k, x)
  {
    if entries != [] {
      var init := entries[..|entries| - 1];
      GroupOfMembers(init, k, x);
      if exists i :: 0 <= i < |init| && init[i] == (k, x) {
        var i :| 0 <= i < |init| && init[i] == (k, x);
        assert entries[i] == (k, x);
      }
    }
  }

  lemma GroupOfSnoc<T>(entries: seq<(string, T)>, i: nat, k: string)
    requires i < |entries|
    ensures GroupOf(entries[..i + 1], k) == GroupOf(entries[..i], k) + (if entries[i].0 == k then [entries[i].1] else [])
  {
    assert entries[..i + 1][..i] == entries[..i];
  }

  /** `m` holds the groups of the first `n` entries: one key per filed key, each with its values in order. */
  ghost predicate GroupedUpTo<T>(entries: seq<(string, T)>, n: nat, m: map<string, seq<T>>)
    requires n <= |entries|
  {
    (forall k :: k in m <==> exists j :: 0 <= j < n && entries[j].0 == k)
    && (forall k :: k in m ==> m[k] == GroupOf(entries[..n], k))
  }

  /** `if k not in m: m[k] = []` then `m[k].append(x)`, for every entry in order. */
  method GroupEntries<T>(entries: seq<(string, T)>) returns (m: map<string, seq<T>>)
    ensures forall k :: k in m <==> exists i :: 0 <= i < |entries| && entries[i].0 == k
    ensures forall k :: k in m ==> m[k] == GroupOf(entries, k)
  {
    m := map[];
    for i := 0 to |entries|
      invariant GroupedUpTo(entries, i, m)
    {
      var k, x := entries[i].0, entries[i].1;
      var group := if k in m then m[k] else [];
      GroupStep(entries, i, m);
      m := m[k := group + [x]];
    }
    assert entries[..|entries|] == entries;
  }

  /** Filing entry `i` extends the groups of the entries before it. */
  lemma GroupStep<T>(entries: seq<(string, T)>, i: nat, m: map<string, seq<T>>)
    requires i < |entries| && GroupedUpTo(entries, i, m)
    ensures var k := entries[i].0;
      GroupedUpTo(entries, i + 1, m[k := (if k in m then m[k] else []) + [entries[i].1]])
  {
    var k, x := entries[i].0, entries[i].1;
    if k !in m {
      GroupOfAbsent(entries[..i], k);
    }
    var next := m[k := (if k in m then m[k] else []) + [x]];
    forall k' | k' in next
      ensures next[k'] == GroupOf(entries[..i + 1], k')
    {
      GroupOfSnoc(entries, i, k');
    }
    forall k' ensures k' in next <==> exists j :: 0 <= j < i + 1 && entries[j].0 == k' {
      if k' != k && k' !in m {
        assert forall j :: 0 <= j < i + 1 ==> entries[j].0 != k';
      }
    }
  }

  lemma {:induction false} GroupOfAbsent<T>(entries: seq<(string, T)>, k: string)
    requires forall j :: 0 <= j < |entries| ==> entries[j].0 != k
    ensures GroupOf(entries, k) == []
  {
    if entries != [] {
      GroupOfAbsent(entries[..|entries| - 1], k);
    }
  }

  /** A `building_costs` record. */
  datatype CostRecord = CostRecord(building: string, material: string, amount: real)

  /** A `building_workforce_requirements` record, and the requirement stored for it. */
  datatype RequirementRecord = RequirementRecord(building: string, workforceType: string, amount: real)
  datatype Requirement = Requirement(workforceType: string, amount: real)

  /** A `building_workforces` record. */
  datatype LevelRecord = LevelRecord(level: string, building: string, capacity: real)

  function CostEntries(rs: seq<CostRecord>): (es: seq<(string, CostItem)>)
    ensures |es| == |rs|
  {
    seq(|rs|, i requires 0 <= i < |rs| => (rs[i].building, CostItem(rs[i].material, rs[i].amount)))
  }

  function RequirementEntries(rs: seq<RequirementRecord>): (es: seq<(string, Requirement)>)
    ensures |es| == |rs|
  {
    seq(|rs|, i requires 0 <= i < |rs| => (rs[i].building, Requirement(rs[i].workforceType, rs[i].amount)))
  }

  function LevelEntries(rs: seq<LevelRecord>): (es: seq<(string, WorkforceNeed)>)
    ensures |es| == |rs|
  {
    seq(|rs|, i requires 0 <= i < |rs| => (rs[i].building, WorkforceNeed(rs[i].building, rs[i].level, rs[i].capacity)))
  }

  /** `building_costs_map`: every building with a cost record, mapped to its cost items in input order. */
  method LoadBuildingCosts(rs: seq<CostRecord>) returns (m: map<string, seq<CostItem>>)
    ensures forall b :: b in m <==> exists i :: 0 <= i < |rs| && rs[i].building == b
    ensures forall b :: b in m ==> m[b] == GroupOf(CostEntries(rs), b)
  {
    var es := CostEntries(rs);
    m := GroupEntries(es);
    assert forall i :: 0 <= i < |rs| ==> es[i].0 == rs[i].building;
  }

  /** `building_workforce_req_map`, built from the intended requirement records. */
  method LoadWorkforceRequirements(rs: seq<RequirementRecord>) returns (m: map<string, seq<Requirement>>)
    ensures forall b :: b in m <==> exists i :: 0 <= i < |rs| && rs[i].building == b
    ensures forall b :: b in m ==> m[b] == GroupOf(RequirementEntries(rs), b)
  {
    var es := RequirementEntries(rs);
    m := GroupEntries(es);
    assert forall i :: 0 <= i < |rs| ==> es[i].0 == rs[i].building;
  }

  /** `static_building_workforces`: the per-level capacities of every building, in input order. */
  method LoadBuildingWorkforces(rs: seq<LevelRecord>) returns (m: map<string, seq<WorkforceNeed>>)
    ensures forall b :: b in m <==> exists i :: 0 <= i < |rs| && rs[i].building == b
    ensures forall b :: b in m ==> m[b] == GroupOf(LevelEntries(rs), b)
    ensures forall b, n :: b in m && n in m[b] ==> n.buildingTicker == b
  {
    var es := LevelEntries(rs);
    m := GroupEntries(es);
    assert forall i :: 0 <= i < |rs| ==> es[i].0 == rs[i].building;
    forall b, n | b in m && n in m[b] ensures n.buildingTicker == b {
      GroupOfMembers(es, b, n);
      var i :| 0 <= i < |es| && es[i] == (b, n);
    }
  }

  // ---------------------------------------------------------------------
  // The recipe catalogue
  // ---------------------------------------------------------------------

  /** A `recipes` record; `timeMs` is `TimeMs`, absent as None. */
  datatype RecipeRecord = RecipeRecord(standardName: string, recipeName: string, timeMs: Option<int>)

  function RecipeKey(r: Recipe): string
  {
    r.standardName
  }

  /** The Recipe built from one record: ticker and items from the parser, duration defaulting to 0. */
  function RecipeOf(rec: RecipeRecord): Recipe
  {
    var parsed := ParseRecipeName(VStr(rec.standardName));
    Recipe(rec.standardName, parsed.0, rec.recipeName, rec.timeMs.UnwrapOr(0), parsed.1, parsed.2)
  }

  function RecipesOf(rs: seq<RecipeRecord>): (out: seq<Recipe>)
    ensures |out| == |rs|
  {
    seq(|rs|, i requires 0 <= i < |rs| => RecipeOf(rs[i]))
  }

  /**
   * `static_recipes[StandardRecipeName] = Recipe(...)` for every record: the
   * catalogue holds one recipe per standard name, built from the last record
   * with that name.
   */
  method LoadRecipes(rs: seq<RecipeRecord>) returns (recipes: seq<Recipe>)
    ensures UniqueBy(recipes, RecipeKey)
    ensures forall k :: LookupBy(recipes, RecipeKey, k) == LastWith(RecipesOf(rs), RecipeKey, k)
    ensures forall r :: r in recipes ==> exists i :: 0 <= i < |rs| && r == RecipeOf(rs[i])
  {
    var all := RecipesOf(rs);
    recipes := PutEach(all, RecipeKey);
    forall r | r in recipes ensures exists i :: 0 <= i < |rs| && r == RecipeOf(rs[i]) {
      var i :| 0 <= i < |all| && all[i] == r;
    }
  }

  /** Each catalogue entry's recipe carries the parser's building ticker and duration default. */
  lemma RecipeOfFields(rec: RecipeRecord)
    ensures RecipeOf(rec).standardName == rec.standardName
    ensures RecipeOf(rec).buildingTicker == ParseRecipeName(VStr(rec.standardName)).0
    ensures rec.timeMs.None? ==> RecipeOf(rec).durationMs == 0
    ensures rec.timeMs.Some? ==> RecipeOf(rec).durationMs == rec.timeMs.value
  {
  }

  // ---------------------------------------------------------------------
  // Linking production orders to building instances
  // ---------------------------------------------------------------------

  /** A `productionOverview` order; the fields the planner does not read are left out. */
  datatype OrderRecord = OrderRecord(orderId: string, recipeName: string, completionEpochMs: Option<int>, durationMs: int, isHalted: bool)

  /** A `productionOverview` line: its `SiteId`, its `Type` (a building name) and its orders. */
  datatype LineRecord = LineRecord(siteId: Option<string>, lineType: Option<string>, orders: seq<OrderRecord>)

  /** The first site with the given id. */
  function FirstSite(sites: seq<Site>, id: string): (r: Option<nat>)
    ensures r.Some? ==> r.value < |sites| && sites[r.value].siteId == id
                        && forall j :: 0 <= j < r.value ==> sites[j].siteId != id
    ensures r.None? ==> forall j :: 0 <= j < |sites| ==> sites[j].siteId != id
  {
    if sites == [] then None
    else if sites[0].siteId == id then Some(0)
    else match FirstSite(sites[1..], id)
      case None => None
      case Some(j) => Some(j + 1)
  }

  /** The first building instance with the given name. */
  function FirstNamed(bs: seq<BuildingInstance>, name: string): (r: Option<nat>)
    ensures r.Some? ==> r.value < |bs| && bs[r.value].buildingName == name
                        && forall j :: 0 <= j < r.value ==> bs[j].buildingName != name
    ensures r.None? ==> forall j :: 0 <= j < |bs| ==> bs[j].buildingName != name
  {
    if bs == [] then None
    else if bs[0].buildingName == name then Some(0)
    else match FirstNamed(bs[1..], name)
      case None => None
      case Some(j) => Some(j + 1)
  }

  /** The `SiteBuildingId` for a line: None unless both `SiteId` and `Type` are set and match. */
  function LineBuilding(sites: seq<Site>, line: LineRecord): (r: Option<string>)
    ensures r.Some? ==> (TruthyId(line.siteId) && TruthyId(line.lineType)
                         && exists i, j :: (0 <= i < |sites| && sites[i].siteId == line.siteId.value
                                            && 0 <= j < |sites[i].buildings|
                                            && sites[i].buildings[j].buildingName == line.lineType.value
                                            && r.value == sites[i].buildings[j].siteBuildingId))
    ensures (TruthyId(line.siteId) && TruthyId(line.lineType)
             && (exists j :: 0 <= j < |sites| && sites[j].siteId == line.siteId.value)
             && (forall i :: 0 <= i < |sites| && sites[i].siteId == line.siteId.value ==>
                   exists j :: 0 <= j < |sites[i].buildings| && sites[i].buildings[j].buildingName == line.lineType.value))
            ==> r.Some?
  {
    if TruthyId(line.siteId) && TruthyId(line.lineType) then
      match FirstSite(sites, line.siteId.value)
      case None => None
      case Some(i) =>
        match FirstNamed(sites[i].buildings, line.lineType.value)
        case None => None
        case Some(j) => Some(sites[i].buildings[j].siteBuildingId)
    else None
  }

  method FindSite(sites: seq<Site>, id: string) returns (r: Option<nat>)
    ensures r == FirstSite(sites, id)
  {
    r := None;
    var i := 0;
    while i < |sites|
      invariant 0 <= i <= |sites|
      invariant forall j :: 0 <= j < i ==> sites[j].siteId != id
    {
      if sites[i].siteId == id {
        r := Some(i);
        break;
      }
      i := i + 1;
    }
    FirstSiteUnique(sites, id, r);
  }

  lemma FirstSiteUnique(sites: seq<Site>, id: string, r: Option<nat>)
    requires r.Some? ==> r.value < |sites| && sites[r.value].siteId == id
                         && forall j :: 0 <= j < r.value ==> sites[j].siteId != id
    requires r.None? ==> forall j :: 0 <= j < |sites| ==> sites[j].siteId != id
    ensures r == FirstSite(sites, id)
  {
  }

  method FindBuildingNamed(bs: seq<BuildingInstance>, name: string) returns (r: Option<nat>)
    ensures r == FirstNamed(bs, name)
  {
    r := None;
    var i := 0;
    while i < |bs|
      invariant 0 <= i <= |bs|
      invariant forall j :: 0 <= j < i ==> bs[j].buildingName != name
    {
      if bs[i].buildingName == name {
        r := Some(i);
        break;
      }
      i := i + 1;
    }
    FirstNamedUnique(bs, name, r);
  }

  lemma FirstNamedUnique(bs: seq<BuildingInstance>, name: string, r: Option<nat>)
    requires r.Some? ==> r.value < |bs| && bs[r.value].buildingName == name
                         && forall j :: 0 <= j < r.value ==> bs[j].buildingName != name
    requires r.None? ==> forall j :: 0 <= j < |bs| ==> bs[j].buildingName != name
    ensures r == FirstNamed(bs, name)
  {
  }

  function OrderKey(o: ProductionOrder): string
  {
    o.orderId
  }

  function OrderOf(o: OrderRecord, building: Option<string>): ProductionOrder
  {
    ProductionOrder(o.orderId, building, o.recipeName, o.completionEpochMs, o.durationMs, o.isHalted)
  }

  /** The orders of one line, each given the line's building id. */
  function Stamp(os: seq<OrderRecord>, building: Option<string>): (r: seq<ProductionOrder>)
    ensures |r| == |os|
    ensures forall k :: 0 <= k < |os| ==> r[k] == OrderOf(os[k], building)
  {
    if os == [] then [] else Stamp(os[..|os| - 1], building) + [OrderOf(os[|os| - 1], building)]
  }

  /** Every order of every line, in order, with its line's building id. */
  function LineOrders(sites: seq<Site>, lines: seq<LineRecord>): seq<ProductionOrder>
  {
    if lines == [] then []
    else LineOrders(sites, lines[..|lines| - 1]) + Stamp(lines[|lines| - 1].orders, LineBuilding(sites, lines[|lines| - 1]))
  }

  /** Each linked order comes from some line's record, stamped with that line's building id. */
  lemma {:induction false} LineOrdersFrom(sites: seq<Site>, lines: seq<LineRecord>, o: ProductionOrder)
    requires o in LineOrders(sites, lines)
    ensures exists i, k :: (0 <= i < |lines| && 0 <= k < |lines[i].orders|
                            && o == OrderOf(lines[i].orders[k], LineBuilding(sites, lines[i])))
  {
    var init := lines[..|lines| - 1];
    var last := lines[|lines| - 1];
    if o in LineOrders(sites, init) {
      LineOrdersFrom(sites, init, o);
      var i, k :| 0 <= i < |init| && 0 <= k < |init[i].orders|
                  && o == OrderOf(init[i].orders[k], LineBuilding(sites, init[i]));
      assert lines[i] == init[i];
    } else {
      var st := Stamp(last.orders, LineBuilding(sites, last));
      assert o in st;
      var k :| 0 <= k < |st| && st[k] == o;
      assert o == OrderOf(lines[|lines| - 1].orders[k], LineBuilding(sites, lines[|lines| - 1]));
    }
  }

  method LineBuildingId(sites: seq<Site>, line: LineRecord) returns (b: Option<string>)
    ensures b == LineBuilding(sites, line)
  {
    b := None;
    if TruthyId(line.siteId) && TruthyId(line.lineType) {
      var si := FindSite(sites, line.siteId.value);
      if si.Some? {
        var bi := FindBuildingNamed(sites[si.value].buildings, line.lineType.value);
        if bi.Some? {
          b := Some(sites[si.value].buildings[bi.value].siteBuildingId);
        }
      }
    }
  }

  /**
   * `parsed_production_orders`: one order per ProductionLineOrderId (the last
   * one read), each carrying the building id of the line it came from.
   */
  method LinkOrders(sites: seq<Site>, lines: seq<LineRecord>) returns (orders: seq<ProductionOrder>)
    ensures orders == PutAll(LineOrders(sites, lines), OrderKey)
    ensures UniqueBy(orders, OrderKey)
    ensures forall o :: o in orders ==> exists i, k :: (0 <= i < |lines| && 0 <= k < |lines[i].orders|
                                                        && o == OrderOf(lines[i].orders[k], LineBuilding(sites, lines[i])))
  {
    orders := [];
    for i := 0 to |lines|
      invariant orders == PutAll(LineOrders(sites, lines[..i]), OrderKey)
    {
      var b := LineBuildingId(sites, lines[i]);
      var os := lines[i].orders;
      ghost var before := LineOrders(sites, lines[..i]);
      orders := PutMore(orders, before, Stamp(os, b), OrderKey);
      assert lines[..i + 1][..i] == lines[..i];
    }
    assert lines[..|lines|] == lines;
    PutAllLast(LineOrders(sites, lines), OrderKey, "");
    forall o | o in orders
      ensures exists i, k :: (0 <= i < |lines| && 0 <= k < |lines[i].orders|
                              && o == OrderOf(lines[i].orders[k], LineBuilding(sites, lines[i])))
    {
      LineOrdersFrom(sites, lines, o);
    }
  }

  /** Orders keep, per id, the last record read; the building id is the matching instance's. */
  lemma LinkedOrderLookup(sites: seq<Site>, lines: seq<LineRecord>, id: string)
    ensures LookupBy(PutAll(LineOrders(sites, lines), OrderKey), OrderKey, id) == LastWith(LineOrders(sites, lines), OrderKey, id)
  {
    PutAllLast(LineOrders(sites, lines), OrderKey, id);
  }
}
