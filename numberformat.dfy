/**
 * The Discord notifier's number formatting: `format_amount` writes an
 * integer with a ',' between groups of three digits (Python's `f"{n:,}"`),
 * and `format_price` does the same for a price given as a whole number and
 * appends the currency " ICA".
 */
module NumberFormat {
  import opened PyStrings

  /** The Python value handed to a formatter: `isinstance` tells these apart. */
  datatype Number =
    | NoValue
    | IntVal(i: int)
      /** `bool` is a subclass of `int`: `True` formats as 1. */
    | BoolVal(b: bool)
    | FloatVal(x: real)
    | OtherVal

  /** Decimal digits with a ',' before every group of three, counted from the right. */
  function GroupDigits(d: string): string
  {
    if |d| <= 3 then d else GroupDigits(d[..|d| - 3]) + "," + d[|d| - 3..]
  }

  /** `f"{n:,}"` for an integer. */
  function FormatInt(n: int): string
  {
    if n < 0 then "-" + GroupDigits(NatToDigits(-n)) else GroupDigits(NatToDigits(n))
  }

  lemma {:induction false} RemoveCharAppend(a: string, b: string, c: char)
    ensures RemoveChar(a + b, c) == RemoveChar(a, c) + RemoveChar(b, c)
  {
    if a == [] {
      assert a + b == b;
    } else {
      assert (a + b)[0] == a[0];
      assert (a + b)[1..] == a[1..] + b;
      RemoveCharAppend(a[1..], b, c);
    }
  }

  /** Grouping only inserts commas: deleting them undoes it. */
  lemma {:induction false} UngroupDigits(d: string)
    ensures RemoveChar(GroupDigits(d), ',') == RemoveChar(d, ',')
    decreases |d|
  {
    if |d| > 3 {
      var hi, lo := d[..|d| - 3], d[|d| - 3..];
      var g := GroupDigits(hi);
      assert RemoveChar(g, ',') == RemoveChar(hi, ',') by {
        UngroupDigits(hi);
      }
      assert GroupDigits(d) == g + ([','] + lo);
      assert RemoveChar(g + ([','] + lo), ',') == RemoveChar(g, ',') + RemoveChar(lo, ',') by {
        RemoveCharAppend(g, [','] + lo, ',');
        assert ([','] + lo)[1..] == lo;
      }
      assert RemoveChar(d, ',') == RemoveChar(hi, ',') + RemoveChar(lo, ',') by {
        assert hi + lo == d;
        RemoveCharAppend(hi, lo, ',');
      }
    }
  }

  /**
   * Position `i` of a grouped string: a ',' exactly at the positions 4, 8,
   * 12, ... counted from the end, and a digit everywhere else.
   */
  predicate GroupedAt(g: string, i: int)
    requires 0 <= i < |g|
  {
    (g[i] == ',' <==> (|g| - i) % 4 == 0) && (g[i] != ',' ==> IsDigit(g[i]))
  }

  /** Appending "," and three digits to a grouped string keeps it grouped. */
  lemma GroupedJoin(gh: string, lo: string, i: int)
    requires |gh| % 4 != 0 && |lo| == 3 && IsDigit(lo[0]) && IsDigit(lo[1]) && IsDigit(lo[2])
    requires forall j :: 0 <= j < |gh| ==> GroupedAt(gh, j)
    requires 0 <= i < |gh| + 4
    ensures GroupedAt(gh + "," + lo, i)
  {
    var g := gh + "," + lo;
    if i < |gh| {
      assert g[i] == gh[i];
      assert GroupedAt(gh, i);
      var k := |gh| - i;
      assert (k + 4) % 4 == k % 4;
    } else if i == |gh| {
      assert g[i] == ',';
    } else {
      assert g[i] == lo[i - |gh| - 1];
    }
  }

  /**
   * In a grouped string of digits the commas stand exactly at the positions
   * 4, 8, 12, ... counted from the end, and every other character is a digit.
   */
  lemma {:induction false} CommaPositions(d: string)
    requires |d| > 0 && forall i :: 0 <= i < |d| ==> IsDigit(d[i])
    decreases |d|
    ensures forall i :: 0 <= i < |GroupDigits(d)| ==> GroupedAt(GroupDigits(d), i)
    ensures |GroupDigits(d)| % 4 != 0
  {
    if |d| > 3 {
      var hi, lo := d[..|d| - 3], d[|d| - 3..];
      assert forall i :: 0 <= i < |hi| ==> hi[i] == d[i];
      CommaPositions(hi);
      var gh := GroupDigits(hi);
      var g := gh + "," + lo;
      assert GroupDigits(d) == g;
      assert IsDigit(lo[0]) && IsDigit(lo[1]) && IsDigit(lo[2]) by {
        assert lo[0] == d[|d| - 3] && lo[1] == d[|d| - 2] && lo[2] == d[|d| - 1];
      }
      forall i | 0 <= i < |g| ensures GroupedAt(g, i) {
        GroupedJoin(gh, lo, i);
      }
      assert |g| == |gh| + 4;
    } else {
      forall i | 0 <= i < |d| ensures GroupedAt(d, i) {
        assert d[i] != ',';
        assert 0 < |d| - i < 4;
      }
    }
  }

  /** `format_amount(amount)`. */
  function FormatAmount(v: Number): (r: string)
    ensures !v.IntVal? && !v.BoolVal? ==> r == "N/A"
    ensures v.IntVal? ==> r == FormatInt(v.i)
  {
    match v
    case IntVal(n) => FormatInt(n)
    case BoolVal(b) => FormatInt(if b then 1 else 0)
    case _ => "N/A"
  }

  /**
   * For an integer, deleting every ',' gives `str(n)`; the sign is kept in
   * front, and past it the commas stand at every fourth place from the end.
   */
  lemma FormatIntSpec(n: int)
    ensures RemoveChar(FormatInt(n), ',') == IntToString(n)
    ensures FormatInt(n)[0] == '-' <==> n < 0
    ensures var r, s := FormatInt(n), if n < 0 then 1 else 0;
      forall i :: s <= i < |r| ==> (r[i] == ',' <==> (|r| - i) % 4 == 0) && (r[i] != ',' ==> IsDigit(r[i]))
  {
    FormatIntUngroups(n);
    var r, s := FormatInt(n), if n < 0 then 1 else 0;
    forall i | s <= i < |r|
      ensures (r[i] == ',' <==> (|r| - i) % 4 == 0) && (r[i] != ',' ==> IsDigit(r[i]))
    {
      FormatIntAt(n, i);
    }
    FormatIntSign(n);
  }

  /** Past the sign, `f"{n:,}"` is grouped. */
  lemma FormatIntAt(n: int, i: int)
    requires (if n < 0 then 1 else 0) <= i < |FormatInt(n)|
    ensures GroupedAt(FormatInt(n), i)
  {
    var d := NatToDigits(if n < 0 then -n else n);
    var g := GroupDigits(d);
    CommaPositions(d);
    if n < 0 {
      var r := "-" + g;
      assert r[i] == g[i - 1];
      assert GroupedAt(g, i - 1);
    } else {
      assert GroupedAt(g, i);
    }
  }

  /** `f"{n:,}"` starts with the sign exactly for negative numbers. */
  lemma FormatIntSign(n: int)
    ensures |FormatInt(n)| > 0 && (FormatInt(n)[0] == '-' <==> n < 0)
  {
    var d := NatToDigits(if n < 0 then -n else n);
    var g := GroupDigits(d);
    CommaPositions(d);
    assert |g| > 0 by {
      assert |g| % 4 != 0;
    }
    if n >= 0 {
      assert GroupedAt(g, 0);
    }
  }

  /** Deleting the commas of `f"{n:,}"` gives `str(n)`. */
  lemma FormatIntUngroups(n: int)
    ensures RemoveChar(FormatInt(n), ',') == IntToString(n)
  {
    var d := NatToDigits(if n < 0 then -n else n);
    var g := GroupDigits(d);
    UngroupDigits(d);
    RemoveAbsentChar(d, ',');
    if n < 0 {
      RemoveCharAppend("-", g, ',');
      assert RemoveChar("-", ',') == "-";
    }
  }

  /** What `format_price` yields: text, or the two-decimal float formatting left unevaluated. */
  datatype PriceText = Exact(text: string) | TwoDecimals(value: real)

  /** `int(x)` for a float: truncation toward zero. */
  function Trunc(x: real): int
  {
    if x >= 0.0 then x.Floor else -((-x).Floor)
  }

  /** `format_price(price)`. */
  function FormatPrice(v: Number): (r: PriceText)
    ensures !v.IntVal? && !v.BoolVal? && !v.FloatVal? ==> r == Exact("N/A ICA")
  {
    match v
    case IntVal(n) => Exact(FormatInt(n) + " ICA")
    case BoolVal(b) => Exact(FormatInt(if b then 1 else 0) + " ICA")
    case FloatVal(x) => if Trunc(x) as real == x then Exact(FormatInt(Trunc(x)) + " ICA") else TwoDecimals(x)
    case _ => Exact("N/A ICA")
  }

  /** A whole-number price is its amount formatting followed by " ICA"; only a fractional float is not. */
  lemma PriceOfWhole(v: Number)
    requires v.IntVal? || v.BoolVal? || (v.FloatVal? && v.x == v.x.Floor as real)
    ensures FormatPrice(v) == Exact(FormatAmount(AsInt(v)) + " ICA")
  {
    if v.FloatVal? {
      WholeTrunc(v.x);
    }
  }

  lemma WholeTrunc(x: real)
    requires x == x.Floor as real
    ensures Trunc(x) == x.Floor && Trunc(x) as real == x
  {
    if x < 0.0 {
      assert (-x).Floor == -x.Floor;
    }
  }

  /** `int(price)` for the numeric cases. */
  function AsInt(v: Number): Number
  {
    match v
    case FloatVal(x) => IntVal(Trunc(x))
    case BoolVal(b) => IntVal(if b then 1 else 0)
    case _ => v
  }

  lemma FractionIsNotExact(x: real)
    requires x != x.Floor as real
    ensures FormatPrice(FloatVal(x)).TwoDecimals?
  {
    assert Trunc(x) as real != x by {
      if x < 0.0 {
        assert (-x).Floor as real <= -x;
      }
    }
  }
}
