/**
 * The ship-price sheet parser: a cell such as "basic ship (ftl) - 1,200,000"
 * becomes a ship type and a price. The cell is stripped and lower-cased
 * first; then a "starter ship" cell, the regular expression
 * `^(.*?)\s+\((.*?)\)\s+-\s+(.*)`, a plain `name - price` split and a
 * no-price fallback are tried in that order.
 */
module ShipTypes {
  import opened Wrappers
  import opened PyStrings

  /** `int(re.sub(r'[^0-9]', '', p.strip()))`, or 0 when no digit is left. */
  function PriceOf(p: string): (n: nat)
    ensures n == DigitsValue(DigitsOnly(p))
  {
    var d := DigitsOnly(Strip(p));
    DigitsOfStrip(p);
    if d == [] then 0 else DigitsValue(d)
  }

  lemma {:induction false} DigitsOnlyAppend(a: string, b: string)
    ensures DigitsOnly(a + b) == DigitsOnly(a) + DigitsOnly(b)
  {
    if a != [] {
      var h := if IsDigit(a[0]) then [a[0]] else [];
      assert (a + b)[0] == a[0];
      assert (a + b)[1..] == a[1..] + b;
      DigitsOnlyAppend(a[1..], b);
      assert DigitsOnly(a + b) == h + (DigitsOnly(a[1..]) + DigitsOnly(b));
      assert DigitsOnly(a) == h + DigitsOnly(a[1..]);
    } else {
      assert a + b == b;
    }
  }

  /** Stripping removes whitespace only, so it keeps every digit. */
  lemma DigitsOfStrip(s: string)
    ensures DigitsOnly(Strip(s)) == DigitsOnly(s)
  {
    DigitsOfStripLeft(s);
    DigitsOfStripRight(StripLeft(s));
  }

  lemma {:induction false} DigitsOfStripLeft(s: string)
    ensures DigitsOnly(StripLeft(s)) == DigitsOnly(s)
  {
    if s != [] && IsSpace(s[0]) {
      DigitsOfStripLeft(s[1..]);
      assert !IsDigit(s[0]);
    }
  }

  lemma {:induction false} DigitsOfStripRight(s: string)
    ensures DigitsOnly(StripRight(s)) == DigitsOnly(s)
  {
    if s != [] && IsSpace(s[|s| - 1]) {
      var init, last := s[..|s| - 1], s[|s| - 1];
      DigitsOfStripRight(init);
      assert s == init + [last];
      DigitsOnlyAppend(init, [last]);
      assert !IsDigit(last);
      assert DigitsOnly([last]) == [] by {
        assert [last][1..] == [];
      }
    }
  }

  // ---------------------------------------------------------------------
  // The regular expression ^(.*?)\s+\((.*?)\)\s+-\s+(.*)

  /** Every character of `t[a..b]` is whitespace (`\s`). */
  predicate AllSpace(t: string, a: nat, b: nat)
    requires a <= b <= |t|
  {
    forall k :: a <= k < b ==> IsSpace(t[k])
  }

  /** No character of `t[a..b]` is a line break (`.` matches anything else). */
  predicate NoNewline(t: string, a: nat, b: nat)
    requires a <= b <= |t|
  {
    forall k :: a <= k < b ==> t[k] != '\n'
  }

  /** The length of the whitespace run starting at `i` (a greedy `\s*`). */
  function SpaceRun(t: string, i: nat): (r: nat)
    requires i <= |t|
    decreases |t| - i
    ensures i + r <= |t|
  {
    if i < |t| && IsSpace(t[i]) then 1 + SpaceRun(t, i + 1) else 0
  }

  lemma {:induction false} SpaceRunSpec(t: string, i: nat)
    requires i <= |t|
    decreases |t| - i
    ensures AllSpace(t, i, i + SpaceRun(t, i))
    ensures i + SpaceRun(t, i) == |t| || !IsSpace(t[i + SpaceRun(t, i)])
  {
    if i < |t| && IsSpace(t[i]) {
      SpaceRunSpec(t, i + 1);
    }
  }

  /** The end of the line starting at `k` (a greedy `.*`). */
  function LineEnd(t: string, k: nat): (r: nat)
    requires k <= |t|
    decreases |t| - k
    ensures k <= r <= |t|
  {
    if k == |t| || t[k] == '\n' then k else LineEnd(t, k + 1)
  }

  lemma {:induction false} LineEndSpec(t: string, k: nat)
    requires k <= |t|
    decreases |t| - k
    ensures NoNewline(t, k, LineEnd(t, k))
    ensures LineEnd(t, k) == |t| || t[LineEnd(t, k)] == '\n'
  {
    if k < |t| && t[k] != '\n' {
      LineEndSpec(t, k + 1);
    }
  }

  /** Where a match places its groups: `t[..nameEnd]`, `t[open + 1..close]`, `t[priceStart..priceEnd]`. */
  datatype MatchAt = MatchAt(nameEnd: nat, open: nat, close: nat, dash: nat, priceStart: nat, priceEnd: nat)

  /** `\s+-\s+(.*)` read greedily after a ')' at `close`: the dash and the price group. */
  predicate TailAt(t: string, close: nat, dash: nat, priceStart: nat, priceEnd: nat)
  {
    close + 1 < dash && dash + 1 < priceStart <= priceEnd <= |t|
    && AllSpace(t, close + 1, dash) && t[dash] == '-'
    && AllSpace(t, dash + 1, priceStart) && (priceStart == |t| || !IsSpace(t[priceStart]))
    && NoNewline(t, priceStart, priceEnd) && (priceEnd == |t| || t[priceEnd] == '\n')
  }

  /** A way the whole pattern can match `t`. */
  predicate ValidMatch(t: string, m: MatchAt)
  {
    m.nameEnd < m.open < m.close < |t|
    && NoNewline(t, 0, m.nameEnd) && AllSpace(t, m.nameEnd, m.open) && t[m.open] == '('
    && NoNewline(t, m.open + 1, m.close) && t[m.close] == ')'
    && TailAt(t, m.close, m.dash, m.priceStart, m.priceEnd)
  }

  /** The backtracking order of the two lazy groups: shorter name first, then shorter modifier. */
  predicate Precedes(m: MatchAt, m': MatchAt)
  {
    m.nameEnd < m'.nameEnd || (m.nameEnd == m'.nameEnd && m.close <= m'.close)
  }

  function Tail(t: string, close: nat): Option<(nat, nat, nat)>
    requires close < |t|
  {
    var q := close + 1;
    var a := SpaceRun(t, q);
    if a > 0 && q + a < |t| && t[q + a] == '-' then
      var b := SpaceRun(t, q + a + 1);
      if b > 0 then Some((q + a, q + a + 1 + b, LineEnd(t, q + a + 1 + b))) else None
    else None
  }

  lemma TailSound(t: string, close: nat)
    requires close < |t| && Tail(t, close).Some?
    ensures TailAt(t, close, Tail(t, close).value.0, Tail(t, close).value.1, Tail(t, close).value.2)
  {
    var q := close + 1;
    SpaceRunSpec(t, q);
    var d := q + SpaceRun(t, q);
    SpaceRunSpec(t, d + 1);
    LineEndSpec(t, d + 1 + SpaceRun(t, d + 1));
  }

  /** The tail is determined by where the ')' is. */
  lemma TailUnique(t: string, close: nat, dash: nat, priceStart: nat, priceEnd: nat)
    requires close < |t| && TailAt(t, close, dash, priceStart, priceEnd)
    ensures Tail(t, close) == Some((dash, priceStart, priceEnd))
  {
    var q := close + 1;
    SpaceRunSpec(t, q);
    assert SpaceRun(t, q) == dash - q;
    SpaceRunSpec(t, dash + 1);
    assert SpaceRun(t, dash + 1) == priceStart - dash - 1;
    LineEndSpec(t, priceStart);
    assert LineEnd(t, priceStart) == priceEnd;
  }

  /** The lazy `(.*?)\)`: the first ')' from `j` on that the tail can follow. */
  function CloseFrom(t: string, nameEnd: nat, open: nat, j: nat): (r: Option<MatchAt>)
    requires open < j <= |t|
    decreases |t| - j
  {
    if j == |t| || t[j] == '\n' then None
    else if t[j] == ')' && Tail(t, j).Some? then
      var tl := Tail(t, j).value;
      Some(MatchAt(nameEnd, open, j, tl.0, tl.1, tl.2))
    else CloseFrom(t, nameEnd, open, j + 1)
  }

  /** A match whose name group ends at `i`, if there is one. */
  function MatchHere(t: string, i: nat): (r: Option<MatchAt>)
    requires i < |t|
  {
    var r := SpaceRun(t, i);
    if r > 0 && i + r < |t| && t[i + r] == '(' then CloseFrom(t, i, i + r, i + r + 1) else None
  }

  /** The lazy `^(.*?)\s+\(`: the first end of the name group from `i` on that the rest can follow. */
  function OpenFrom(t: string, i: nat): (r: Option<MatchAt>)
    requires i <= |t|
    decreases |t| - i
  {
    if i == |t| then None
    else if MatchHere(t, i).Some? then MatchHere(t, i)
    else if t[i] == '\n' then None
    else OpenFrom(t, i + 1)
  }

  /** `re.search(r'^(.*?)\s+\((.*?)\)\s+-\s+(.*)', t)`. */
  function Match(t: string): Option<MatchAt>
  {
    OpenFrom(t, 0)
  }

  lemma {:induction false} CloseFromSound(t: string, nameEnd: nat, open: nat, j: nat)
    requires open < j <= |t| && CloseFrom(t, nameEnd, open, j).Some?
    decreases |t| - j
    ensures var m := CloseFrom(t, nameEnd, open, j).value;
      m.nameEnd == nameEnd && m.open == open && j <= m.close < |t|
      && NoNewline(t, j, m.close) && t[m.close] == ')'
      && TailAt(t, m.close, m.dash, m.priceStart, m.priceEnd)
  {
    if t[j] == ')' && Tail(t, j).Some? {
      TailSound(t, j);
    } else {
      CloseFromSound(t, nameEnd, open, j + 1);
    }
  }

  lemma {:induction false} CloseFromLeast(t: string, nameEnd: nat, open: nat, j: nat, c: nat)
    requires open < j <= c < |t| && NoNewline(t, j, c) && t[c] == ')' && Tail(t, c).Some?
    decreases c - j
    ensures CloseFrom(t, nameEnd, open, j).Some? && CloseFrom(t, nameEnd, open, j).value.close <= c
  {
    if j < c && !(t[j] == ')' && Tail(t, j).Some?) {
      CloseFromLeast(t, nameEnd, open, j + 1, c);
    }
  }

  lemma MatchHereSound(t: string, i: nat)
    requires i < |t| && NoNewline(t, 0, i) && MatchHere(t, i).Some?
    ensures ValidMatch(t, MatchHere(t, i).value) && MatchHere(t, i).value.nameEnd == i
  {
    var r := SpaceRun(t, i);
    SpaceRunSpec(t, i);
    CloseFromSound(t, i, i + r, i + r + 1);
  }

  /** A valid match whose name group ends at `i` makes `MatchHere` succeed, with no later ')'. */
  lemma MatchHereLeast(t: string, m: MatchAt)
    requires ValidMatch(t, m)
    ensures MatchHere(t, m.nameEnd).Some?
    ensures MatchHere(t, m.nameEnd).value.nameEnd == m.nameEnd
    ensures MatchHere(t, m.nameEnd).value.close <= m.close
  {
    var i := m.nameEnd;
    SpaceRunSpec(t, i);
    assert SpaceRun(t, i) == m.open - i;
    TailUnique(t, m.close, m.dash, m.priceStart, m.priceEnd);
    CloseFromLeast(t, i, m.open, m.open + 1, m.close);
    CloseFromSound(t, i, m.open, m.open + 1);
  }

  lemma {:induction false} OpenFromSound(t: string, i: nat)
    requires i <= |t| && NoNewline(t, 0, i) && OpenFrom(t, i).Some?
    decreases |t| - i
    ensures ValidMatch(t, OpenFrom(t, i).value) && i <= OpenFrom(t, i).value.nameEnd
  {
    if MatchHere(t, i).Some? {
      MatchHereSound(t, i);
    } else {
      OpenFromSound(t, i + 1);
    }
  }

  lemma {:induction false} OpenFromLeast(t: string, i: nat, m: MatchAt)
    requires ValidMatch(t, m) && i <= m.nameEnd
    decreases m.nameEnd - i
    ensures OpenFrom(t, i).Some? && Precedes(OpenFrom(t, i).value, m)
  {
    if i == m.nameEnd {
      MatchHereLeast(t, m);
    } else if MatchHere(t, i).Some? {
      CloseFromSound(t, i, i + SpaceRun(t, i), i + SpaceRun(t, i) + 1);
    } else {
      assert t[i] != '\n';
      OpenFromLeast(t, i + 1, m);
    }
  }

  /**
   * The search finds a match exactly when the pattern can match at all, and
   * then the one Python's backtracking reaches first: the shortest name
   * group, and for it the shortest modifier group.
   */
  lemma MatchSpec(t: string)
    ensures Match(t).Some? ==> ValidMatch(t, Match(t).value)
    ensures forall m :: ValidMatch(t, m) ==> Match(t).Some? && Precedes(Match(t).value, m)
  {
    if Match(t).Some? {
      OpenFromSound(t, 0);
    }
    forall m | ValidMatch(t, m) ensures Match(t).Some? && Precedes(Match(t).value, m) {
      OpenFromLeast(t, 0, m);
    }
  }

  function NameGroup(t: string, m: MatchAt): string
    requires ValidMatch(t, m)
  {
    t[..m.nameEnd]
  }

  function ModifierGroup(t: string, m: MatchAt): string
    requires ValidMatch(t, m)
  {
    t[m.open + 1..m.close]
  }

  function PriceGroup(t: string, m: MatchAt): string
    requires ValidMatch(t, m)
  {
    t[m.priceStart..m.priceEnd]
  }

  // ---------------------------------------------------------------------
  // parse_ship_type

  /** `text.strip().lower()`. */
  function Normalize(text: string): string
  {
    Lower(Strip(text))
  }

  /** "ftl" when the modifier mentions it, else "stl" when it mentions that, else nothing. */
  function DriveSuffix(modifier: string): string
  {
    if Contains(modifier, "ftl") then "ftl" else if Contains(modifier, "stl") then "stl" else ""
  }

  predicate IsStarter(t: string)
  {
    Contains(t, "starter ship") && '-' in t
  }

  /** The four cases of `parse_ship_type`, on the normalized cell. */
  function ShipTypeOf(t: string): (string, nat)
  {
    if IsStarter(t) then
      ContainsChar(t, '-');
      assert "-" == ['-'];
      var parts := SplitOnce(t, "-");
      ("starter" + ReplaceAll(Lower(Strip(parts[0])), "starter ship wcb ", ""), PriceOf(parts[1]))
    else
      match Match(t)
      case Some(m) =>
        MatchSpec(t);
        var composed := Strip(NameGroup(t, m)) + DriveSuffix(Strip(ModifierGroup(t, m)));
        (RemoveChar(composed, ' '), PriceOf(PriceGroup(t, m)))
      case None =>
        var parts := SplitOnce(t, "-");
        if |parts| == 2 then (ReplaceAll(Strip(parts[0]), "shipwcb", ""), PriceOf(parts[1]))
        else (RemoveChar(t, ' '), 0)
  }

  /** `parse_ship_type(text)`: the ship type and the price. */
  function ParseShipType(text: string): (string, nat)
  {
    ShipTypeOf(Normalize(text))
  }

  // ---------------------------------------------------------------------
  // Properties

  lemma SpaceCase(c: char, d: char)
    requires LowerChar(c) == LowerChar(d)
    ensures IsSpace(c) == IsSpace(d)
  {
  }

  lemma {:induction false} StripLeftCase(a: string, b: string)
    requires Lower(a) == Lower(b)
    ensures Lower(StripLeft(a)) == Lower(StripLeft(b))
  {
    if a != [] && b != [] {
      assert Lower(a)[0] == Lower(b)[0];
      SpaceCase(a[0], b[0]);
      assert Lower(a[1..]) == Lower(a)[1..] && Lower(b[1..]) == Lower(b)[1..];
      StripLeftCase(a[1..], b[1..]);
    }
  }

  lemma {:induction false} StripRightCase(a: string, b: string)
    requires Lower(a) == Lower(b)
    ensures Lower(StripRight(a)) == Lower(StripRight(b))
  {
    if a != [] && b != [] {
      assert Lower(a)[|a| - 1] == Lower(b)[|b| - 1];
      SpaceCase(a[|a| - 1], b[|b| - 1]);
      assert Lower(a[..|a| - 1]) == Lower(a)[..|a| - 1] && Lower(b[..|b| - 1]) == Lower(b)[..|b| - 1];
      StripRightCase(a[..|a| - 1], b[..|b| - 1]);
    }
  }

  /** Two cells that differ only in letter case normalize alike. */
  lemma SameUpToCase(a: string, b: string)
    requires Lower(a) == Lower(b)
    ensures Normalize(a) == Normalize(b)
  {
    StripLeftCase(a, b);
    StripRightCase(StripLeft(a), StripLeft(b));
  }

  /** The cell is stripped and lower-cased before any test: case does not matter ... */
  lemma CaseInsensitive(text: string)
    ensures ParseShipType(Upper(text)) == ParseShipType(text)
    ensures ParseShipType(Lower(text)) == ParseShipType(text)
  {
    LowerOfCase(text);
    SameUpToCase(Upper(text), text);
    SameUpToCase(Lower(text), text);
  }

  lemma LowerOfCase(text: string)
    ensures Lower(Upper(text)) == Lower(text) && Lower(Lower(text)) == Lower(text)
  {
  }

  /** ... and normalizing a cell again changes nothing. */
  lemma NormalizeIdempotent(text: string)
    ensures Normalize(Normalize(text)) == Normalize(text)
    ensures ParseShipType(Normalize(text)) == ParseShipType(text)
  {
    var u := Strip(text);
    StripEnds(text);
    var v := Lower(u);
    if v != [] {
      SpaceCase(u[0], v[0]);
      SpaceCase(u[|u| - 1], v[|v| - 1]);
    }
    StripNoSpaceEnds(v);
    assert Lower(v) == v;
  }

  /** The bracket pattern needs both a '(' and a '-': a cell lacking either never matches. */
  lemma NoMatchWithoutDashOrBracket(t: string)
    requires '-' !in t || '(' !in t
    ensures Match(t).None?
  {
    MatchSpec(t);
  }

  /** With no '-' at all, the type is the cell without its spaces and the price is 0. */
  lemma NoDashForm(t: string)
    requires '-' !in t
    ensures ShipTypeOf(t) == (RemoveChar(t, ' '), 0)
  {
    NoMatchWithoutDashOrBracket(t);
    ContainsChar(t, '-');
    assert "-" == ['-'];
  }

  /**
   * `name - price` without brackets: the type is the stripped name less
   * "shipwcb", spaces kept, and the price is read from the digits after the '-'.
   */
  lemma DashForm(name: string, price: string)
    requires '-' !in name && '(' !in name && '(' !in price
    requires !Contains(name + "-" + price, "starter ship")
    ensures ShipTypeOf(name + "-" + price) == (ReplaceAll(Strip(name), "shipwcb", ""), PriceOf(price))
  {
    var t := name + "-" + price;
    assert '(' !in t;
    NoMatchWithoutDashOrBracket(t);
    assert "-" == ['-'];
    SplitOnceFirst(name, "-", price);
    assert !IsStarter(t);
  }

  /** A "starter ship" cell: "starter" and the name less "starter ship wcb ", with the price after the first '-'. */
  lemma StarterForm(name: string, price: string)
    requires '-' !in name && Contains(name + "-" + price, "starter ship")
    ensures ShipTypeOf(name + "-" + price)
            == ("starter" + ReplaceAll(Lower(Strip(name)), "starter ship wcb ", ""), PriceOf(price))
  {
    var t := name + "-" + price;
    assert t[|name|] == '-';
    assert "-" == ['-'];
    SplitOnceFirst(name, "-", price);
  }

  /** The cell a bracket row is written as. */
  function BracketCell(name: string, modifier: string, price: string): string
  {
    name + " (" + modifier + ") - " + price
  }

  /** Where the groups of a bracket cell lie. */
  function BracketLayout(name: string, modifier: string, price: string): MatchAt
  {
    var n, k := |name|, |modifier|;
    MatchAt(n, n + 1, n + 2 + k, n + 4 + k, n + 6 + k, n + 6 + k + |price|)
  }

  /**
   * `name (modifier) - price`: the type is the name with "ftl" appended when
   * the modifier mentions it, else "stl" when it mentions that, all spaces
   * removed; the price is read from the digits of the price text.
   */
  lemma BracketForm(name: string, modifier: string, price: string)
    requires '\n' !in name && '(' !in name && (name == [] || !IsSpace(name[|name| - 1]))
    requires '\n' !in modifier && ')' !in modifier
    requires '\n' !in price && (price == [] || !IsSpace(price[0]))
    requires !IsStarter(BracketCell(name, modifier, price))
    ensures ShipTypeOf(BracketCell(name, modifier, price))
            == (RemoveChar(Strip(name) + DriveSuffix(Strip(modifier)), ' '), PriceOf(price))
  {
    var t := BracketCell(name, modifier, price);
    var m := BracketLayout(name, modifier, price);
    BracketMatch(name, modifier, price);
    BracketValid(name, modifier, price);
    BracketChars(name, modifier, price);
    assert NameGroup(t, m) == name;
    assert ModifierGroup(t, m) == modifier;
    assert PriceGroup(t, m) == price;
  }

  lemma BracketChars(name: string, modifier: string, price: string)
    ensures var t, n, k := BracketCell(name, modifier, price), |name|, |modifier|;
      |t| == n + 6 + k + |price|
      && t[n] == ' ' && t[n + 1] == '(' && t[n + 2 + k] == ')' && t[n + 3 + k] == ' '
      && t[n + 4 + k] == '-' && t[n + 5 + k] == ' '
      && t[..n] == name && t[n + 2..n + 2 + k] == modifier && t[n + 6 + k..] == price
  {
    var t, n, k := BracketCell(name, modifier, price), |name|, |modifier|;
    assert t == name + [' ', '('] + modifier + [')', ' ', '-', ' '] + price;
  }

  /** No valid match ends its name group before `n` when no '(' comes before `n` and `t[n - 1]` is not whitespace. */
  lemma NoEarlierName(t: string, n: nat)
    requires n <= |t| && (forall i :: 0 <= i < n ==> t[i] != '(') && (n > 0 ==> !IsSpace(t[n - 1]))
    ensures forall f :: ValidMatch(t, f) ==> f.nameEnd >= n
  {
    forall f | ValidMatch(t, f) ensures f.nameEnd >= n {
    }
  }

  /** A valid match's '(' is the first non-whitespace character after its name group. */
  lemma OpenAfterName(t: string, f: MatchAt)
    requires ValidMatch(t, f) && f.nameEnd + 1 < |t| && t[f.nameEnd + 1] == '('
    ensures f.open == f.nameEnd + 1
  {
  }

  /** No valid match with a given '(' closes before `c` when no ')' lies between. */
  lemma NoEarlierClose(t: string, open: nat, c: nat)
    requires open < c <= |t| && forall i :: open < i < c ==> t[i] != ')'
    ensures forall f :: ValidMatch(t, f) && f.open == open ==> f.close >= c
  {
  }

  /** The layout of a bracket cell is a way the pattern matches it. */
  lemma BracketValid(name: string, modifier: string, price: string)
    requires '\n' !in name && '\n' !in modifier && ')' !in modifier
    requires '\n' !in price && (price == [] || !IsSpace(price[0]))
    ensures ValidMatch(BracketCell(name, modifier, price), BracketLayout(name, modifier, price))
  {
    var t := BracketCell(name, modifier, price);
    var m := BracketLayout(name, modifier, price);
    var n, k := |name|, |modifier|;
    BracketChars(name, modifier, price);
    assert NoNewline(t, 0, n) by {
      assert forall i :: 0 <= i < n ==> t[i] == t[..n][i];
    }
    assert NoNewline(t, n + 2, n + 2 + k) by {
      assert forall i :: n + 2 <= i < n + 2 + k ==> t[i] == t[n + 2..n + 2 + k][i - n - 2];
    }
    assert NoNewline(t, n + 6 + k, |t|) by {
      assert forall i :: n + 6 + k <= i < |t| ==> t[i] == t[n + 6 + k..][i - n - 6 - k];
    }
    assert TailAt(t, m.close, m.dash, m.priceStart, m.priceEnd);
  }

  /** Valid matches that agree on the two lazy groups agree everywhere. */
  lemma MatchDetermined(t: string, f: MatchAt, g: MatchAt)
    requires ValidMatch(t, f) && ValidMatch(t, g) && f.nameEnd == g.nameEnd && f.close == g.close
    ensures f == g
  {
    SpaceRunSpec(t, f.nameEnd);
    assert f.open == f.nameEnd + SpaceRun(t, f.nameEnd);
    assert g.open == g.nameEnd + SpaceRun(t, g.nameEnd);
    TailUnique(t, f.close, f.dash, f.priceStart, f.priceEnd);
    TailUnique(t, g.close, g.dash, g.priceStart, g.priceEnd);
  }

  /** A valid match that no other valid match precedes is the one the search finds. */
  lemma FirstMatch(t: string, m: MatchAt)
    requires ValidMatch(t, m)
    requires forall f :: ValidMatch(t, f) ==> f.nameEnd >= m.nameEnd && (f.nameEnd == m.nameEnd ==> f.close >= m.close)
    ensures Match(t) == Some(m)
  {
    MatchSpec(t);
    MatchDetermined(t, Match(t).value, m);
  }

  /** The search on a bracket cell finds exactly its layout. */
  lemma BracketMatch(name: string, modifier: string, price: string)
    requires '\n' !in name && '(' !in name && (name == [] || !IsSpace(name[|name| - 1]))
    requires '\n' !in modifier && ')' !in modifier
    requires '\n' !in price && (price == [] || !IsSpace(price[0]))
    ensures Match(BracketCell(name, modifier, price)) == Some(BracketLayout(name, modifier, price))
  {
    var t := BracketCell(name, modifier, price);
    var m := BracketLayout(name, modifier, price);
    var n, k := |name|, |modifier|;
    BracketValid(name, modifier, price);
    BracketChars(name, modifier, price);
    NoEarlierName(t, n) by {
      assert forall i :: 0 <= i < n ==> t[i] == name[i];
    }
    NoEarlierClose(t, n + 1, n + 2 + k) by {
      assert forall i :: n + 1 < i < n + 2 + k ==> t[i] == modifier[i - n - 2];
    }
    forall f | ValidMatch(t, f) && f.nameEnd == n ensures f.open == n + 1 {
      OpenAfterName(t, f);
    }
    FirstMatch(t, m);
  }
}
