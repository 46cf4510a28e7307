/**
 * The records the production planner works on (the dataclasses of the
 * simulation package, reduced to the fields the planner reads), its
 * constants, and the market look-ups that several parts share.
 */
module PlannerModel {
  import opened Wrappers

  const MsInDay: real := 86400000.0
  const BaseMaxAreaFirstPermit: real := 500.0
  const AdditionalAreaPerPermit: real := 250.0
  const MaxAdditionalPermits: int := 2
  const PermitCost: real := 50000.0
  const SiteBaseAreaCost: real := 25.0

  /** Area a site can give to production buildings: 500 + 2 * 250 - 25 = 975. */
  const MaxProductionArea: real := BaseMaxAreaFirstPermit + MaxAdditionalPermits as real * AdditionalAreaPerPermit - SiteBaseAreaCost

  /** A price that may be `float('inf')`. */
  datatype Cost = Fin(value: real) | Inf
  {
    predicate Less(other: Cost)
    {
      match (this, other)
      case (Fin(a), Fin(b)) => a < b
      case (Fin(_), Inf) => true
      case (Inf, _) => false
    }

    predicate AtMost(other: Cost)
    {
      !other.Less(this)
    }
  }

  datatype Material = Material(materialId: string, ticker: string)

  /** A `RecipeInput` or `RecipeOutput`: the amounts come from `int(...)` in the recipe parser. */
  datatype RecipeItem = RecipeItem(ticker: string, amount: int)

  datatype Recipe = Recipe(
    standardName: string,
    buildingTicker: string,
    recipeName: string,
    durationMs: int,
    inputs: seq<RecipeItem>,
    outputs: seq<RecipeItem>)

  /** A building definition. An area of None behaves as 0 wherever the planner reads it, so it is 0.0 here. */
  datatype Building = Building(ticker: string, name: string, area: real, expertise: Option<string>)

  datatype CostItem = CostItem(ticker: string, amount: real)

  datatype WorkforceNeed = WorkforceNeed(buildingTicker: string, workforceType: string, capacityNeeded: real)

  datatype ProductionOrder = ProductionOrder(
    orderId: string,
    buildingId: Option<string>,
    recipeName: string,
    completionEpochMs: Option<int>,
    durationMs: int,
    isHalted: bool)

  datatype BuildingInstance = BuildingInstance(siteBuildingId: string, buildingName: string, buildingTicker: string)

  /** A company site; `buildings` is its `Buildings` dict's values in insertion order. */
  datatype Site = Site(siteId: string, planetName: string, buildings: seq<BuildingInstance>)

  datatype Quote = Quote(ticker: string, priceAverage: Option<real>, ask: Option<real>, bid: Option<real>)

  datatype Resource = Resource(materialId: string, resourceType: string, factor: real)

  datatype CogcProgram = CogcProgram(programType: Option<string>, startEpochMs: int, endEpochMs: int)

  datatype PlanetData = PlanetData(
    planetId: string,
    planetName: string,
    fertility: real,
    resources: seq<Resource>,
    programs: seq<CogcProgram>,
    hasLocalMarket: bool,
    hasChamberOfCommerce: bool,
    programStatus: Option<string>)

  /**
   * The simulation snapshot. Dicts the planner iterates are sequences in
   * insertion order (`recipes`, `materials`, `orders`); dicts it only looks
   * keys up in are maps. A recipe's and a material's dict key is its own
   * `standardName` / `ticker`. `hqPlanet` is `company.hq.PlanetId`.
   */
  datatype State = State(
    sites: seq<Site>,
    orders: seq<ProductionOrder>,
    hqPlanet: Option<string>,
    materials: seq<Material>,
    buildings: map<string, Building>,
    recipes: seq<Recipe>,
    buildingCosts: map<string, seq<CostItem>>,
    buildingWorkforces: map<string, seq<WorkforceNeed>>,
    market: seq<Quote>,
    planets: seq<PlanetData>)

  datatype RecommendedBuilding = RecommendedBuilding(
    ticker: string,
    name: string,
    amount: int,
    estimatedCost: real,
    planetId: Option<string>,
    siteId: Option<string>)

  datatype RecommendedPlanet = RecommendedPlanet(
    planetId: string,
    planetName: string,
    fertility: real,
    resources: seq<Resource>,
    totalCost: real,
    workforce: seq<(string, real)>,
    buildings: seq<RecommendedBuilding>,
    siteId: string)

  datatype Recommendation = Recommendation(
    ticker: string,
    target: real,
    current: real,
    gap: real,
    planets: seq<RecommendedPlanet>,
    totalCost: real)

  /**
   * What the planner takes from its environment: the clock (`time.time()`
   * in ms), the index `random.choice` picks on the planet selector's n-th
   * recipe, the order `random.shuffle` gives the planets on the n-th
   * placement search (entry i names the planet moved to position i), and
   * the text of the n-th `uuid4()`.
   */
  datatype Env = Env(now: int, choose: nat -> nat, shuffle: nat -> seq<nat>, uuid: nat -> string)

  /** Python's `int(x)` on a float: truncation toward zero. */
  function Trunc(x: real): int
  {
    if x >= 0.0 then x.Floor else -((-x).Floor)
  }

  /** The `int(x + 0.99)` idiom used where the code wants a ceiling. */
  function ApproxCeil(x: real): int
  {
    Trunc(x + 0.99)
  }

  /** For x >= 0 the idiom is a ceiling except when the fractional part of x lies in (0, 0.01). */
  lemma ApproxCeilBounds(x: real)
    requires x >= 0.0
    ensures x - 0.01 < ApproxCeil(x) as real <= x + 0.99
    ensures x.Floor <= ApproxCeil(x) <= x.Floor + 1
  {
  }

  lemma ApproxCeilMissesSmallFraction()
    ensures ApproxCeil(1.0 / 250.0) == 0
  {
  }

  predicate Produces(r: Recipe, t: string)
  {
    exists i :: 0 <= i < |r.outputs| && r.outputs[i].ticker == t
  }

  /** `static_recipes.get(name)`. */
  function FindRecipe(recipes: seq<Recipe>, name: string): (r: Option<Recipe>)
    ensures r.Some? ==> r.value in recipes && r.value.standardName == name
    ensures r.None? ==> forall i :: 0 <= i < |recipes| ==> recipes[i].standardName != name
  {
    if recipes == [] then None
    else if recipes[0].standardName == name then Some(recipes[0])
    else FindRecipe(recipes[1..], name)
  }

  /** The first market quote for a ticker (`next(md for md in dynamic_market_data if ...)`). */
  function FirstQuote(market: seq<Quote>, t: string): (q: Option<Quote>)
    ensures q.Some? ==> q.value in market && q.value.ticker == t
    ensures q.Some? ==> exists i :: 0 <= i < |market| && market[i] == q.value && forall j :: 0 <= j < i ==> market[j].ticker != t
    ensures q.None? <==> forall i :: 0 <= i < |market| ==> market[i].ticker != t
  {
    if market == [] then None
    else if market[0].ticker == t then Some(market[0])
    else
      var q := FirstQuote(market[1..], t);
      if q.Some? then
        var i :| 0 <= i < |market[1..]| && market[1..][i] == q.value && forall j :: 0 <= j < i ==> market[1..][j].ticker != t;
        assert market[i + 1] == q.value && forall j :: 0 <= j < i + 1 ==> market[j].ticker != t;
        q
      else q
  }

  /** Ask, else Bid, else PriceAverage of a quote, when any of them is present. */
  function QuotePrice(q: Quote): Option<real>
  {
    if q.ask.Some? then q.ask
    else if q.bid.Some? then q.bid
    else q.priceAverage
  }

  /** The price of buying one unit; infinite with no quote or no usable price. */
  function BuyPrice(market: seq<Quote>, t: string): (c: Cost)
    ensures FirstQuote(market, t).None? ==> c == Inf
    ensures c.Fin? <==> FirstQuote(market, t).Some? && QuotePrice(FirstQuote(market, t).value).Some?
    ensures c.Fin? ==> QuotePrice(FirstQuote(market, t).value) == Some(c.value)
  {
    match FirstQuote(market, t)
    case None => Inf
    case Some(q) =>
      match QuotePrice(q)
      case None => Inf
      case Some(p) => Fin(p)
  }

  /**
   * The price of one unit of a building material: the first quote's Ask,
   * else its Bid, else its PriceAverage, and 0 without a quote or a price.
   */
  function ItemPrice(market: seq<Quote>, t: string): (p: real)
    ensures FirstQuote(market, t).None? ==> p == 0.0
    ensures FirstQuote(market, t).Some? ==>
              var q := FirstQuote(market, t).value;
              p == if q.ask.Some? then q.ask.value
                   else if q.bid.Some? then q.bid.value
                   else if q.priceAverage.Some? then q.priceAverage.value
                   else 0.0
  {
    match BuyPrice(market, t)
    case Fin(p) => p
    case Inf => 0.0
  }

  function SumCostItems(market: seq<Quote>, items: seq<CostItem>): real
  {
    if items == [] then 0.0
    else SumCostItems(market, items[..|items| - 1]) + items[|items| - 1].amount * ItemPrice(market, items[|items| - 1].ticker)
  }

  /** Materials for one building at market prices: the sum over its cost items of amount times price. */
  function ConstructionCost(st: State, b: string): real
  {
    SumCostItems(st.market, if b in st.buildingCosts then st.buildingCosts[b] else [])
  }

  /** With no market data every item is priced at 0, so the housing loop's extra market check changes nothing. */
  lemma {:induction false} NoMarketNoCost(market: seq<Quote>, items: seq<CostItem>)
    requires market == []
    ensures SumCostItems(market, items) == 0.0
  {
    if items != [] {
      NoMarketNoCost(market, items[..|items| - 1]);
    }
  }

  lemma {:induction false} CostItemsNonNegative(market: seq<Quote>, items: seq<CostItem>)
    requires forall i :: 0 <= i < |items| ==> items[i].amount >= 0.0
    requires forall i :: 0 <= i < |market| ==> QuotePrice(market[i]).Some? ==> QuotePrice(market[i]).value >= 0.0
    ensures SumCostItems(market, items) >= 0.0
  {
    if items != [] {
      var last := items[|items| - 1];
      CostItemsNonNegative(market, items[..|items| - 1]);
      assert ItemPrice(market, last.ticker) >= 0.0;
    }
  }

  /** A Python `Optional[str]` used as a condition: None and "" are false. */
  predicate TruthyId(x: Option<string>)
  {
    x.Some? && x.value != ""
  }
}
