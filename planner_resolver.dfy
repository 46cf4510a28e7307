/**
 * `_calculate_material_cost_and_source`: the recursive make-or-buy cost of
 * one unit of a material. The specification is four mutually recursive
 * functions (the resolver, its scan over candidate recipes, the costing of
 * one recipe and the scan over that recipe's inputs); the imperative
 * version mirrors them with loops and is proved equal to them.
 */
module CostResolver {
  import opened Wrappers
  import opened PlannerModel
  import opened RecipeCatalog
  import opened PlanetSelection

  /** The default `max_recursion_depth`. */
  const MaxRecursionDepth: nat := 3
  /** A matching COGC program makes production 10% faster. */
  const CogcSpeedup: real := 0.9
  /** Construction is amortised over one year of production. */
  const DaysAmortized: real := 365.0

  datatype Source = Buy | Produce | Unknown

  /** `(cost_per_unit, source_type, recommended_sub_buildings, source_planet_id)`. */
  datatype Resolution = Resolution(cost: Cost, source: Source, buildings: seq<RecommendedBuilding>, planet: Option<string>)

  /** What every level of the recursion shares: the snapshot, the environment and the depth limit. */
  datatype Ctx = Ctx(st: State, env: Env, maxDepth: nat)

  /**
   * The result of evaluating one candidate recipe: skipped before its
   * construction cost was computed, or costed (with no unit cost when the
   * recipe has zero output or duration).
   */
  datatype Outcome =
    | Skipped
    | Costed(construction: real, unit: Option<real>, subs: seq<RecommendedBuilding>, planet: Option<string>)

  /**
   * The best-so-far variables of the recipe loop, plus
   * `building_construction_cost`, which keeps the value of the last recipe
   * that reached it whether or not that recipe became the best.
   */
  datatype Scan = Scan(best: Cost, building: Option<string>, subs: seq<RecommendedBuilding>,
                       planet: Option<string>, construction: real)

  datatype InputCost = InputCost(total: real, subs: seq<RecommendedBuilding>)

  const InitialScan: Scan := Scan(Inf, None, [], None, 0.0)

  /** `max_recursion_depth - recursion_depth`, the measure every recursive call decreases. */
  function Budget(depth: nat, maxDepth: nat): nat
  {
    if depth <= maxDepth then maxDepth - depth + 1 else 0
  }

  /** The recipes with an output of the material, in catalogue order. */
  function PossibleRecipes(recipes: seq<Recipe>, t: string): (rs: seq<Recipe>)
    ensures forall r :: r in rs <==> r in recipes && Produces(r, t)
  {
    if recipes == [] then []
    else
      var rest := PossibleRecipes(recipes[1..], t);
      assert forall r :: r in recipes <==> r == recipes[0] || r in recipes[1..];
      (if Produces(recipes[0], t) then [recipes[0]] else []) + rest
  }

  /** The amount of the first output of the material, 0 when there is none. */
  function OutputAmount(outs: seq<RecipeItem>, t: string): (a: int)
    ensures (forall i :: 0 <= i < |outs| ==> outs[i].ticker != t) ==> a == 0
    ensures (exists i :: 0 <= i < |outs| && outs[i].ticker == t) ==>
      exists i :: 0 <= i < |outs| && outs[i].ticker == t && a == outs[i].amount
        && forall j :: 0 <= j < i ==> outs[j].ticker != t
  {
    if outs == [] then 0
    else if outs[0].ticker == t then outs[0].amount
    else
      var a := OutputAmount(outs[1..], t);
      assert forall i :: 1 <= i < |outs| ==> outs[i] == outs[1..][i - 1];
      if exists i :: 0 <= i < |outs| && outs[i].ticker == t then
        var i :| 0 <= i < |outs| && outs[i].ticker == t;
        assert outs[1..][i - 1].ticker == t;
        a
      else a
  }

  /** The first planet with the id. */
  function FindPlanet(planets: seq<PlanetData>, id: string): (p: Option<PlanetData>)
    ensures p.Some? ==> p.value in planets && p.value.planetId == id
    ensures p.None? ==> forall q :: q in planets ==> q.planetId != id
  {
    if planets == [] then None
    else if planets[0].planetId == id then Some(planets[0])
    else FindPlanet(planets[1..], id)
  }

  /**
   * The COGC bonus applies when production has a (non-empty) planet that is
   * known, the material has a category, and that planet runs the matching
   * advertising program at `now`.
   */
  predicate CogcApplies(c: Ctx, t: string, planet: Option<string>)
  {
    TruthyId(planet) && FindPlanet(c.st.planets, planet.value).Some?
    && MaterialCategory(c.st.recipes, c.st.buildings, t).Some?
    && ProgramActive(FindPlanet(c.st.planets, planet.value).value,
                     ProgramTypeFor(MaterialCategory(c.st.recipes, c.st.buildings, t).value), c.env.now)
  }

  function EffectiveDuration(c: Ctx, t: string, r: Recipe, planet: Option<string>): real
  {
    if CogcApplies(c, t, planet) then CogcSpeedup * r.durationMs as real else r.durationMs as real
  }

  /** Input cost per output unit plus construction amortised over a year of one building's output. */
  function UnitCost(inputTotal: real, construction: real, out: int, duration: real): real
    requires out > 0 && duration > 0.0
  {
    inputTotal / out as real + construction / (out as real * (MsInDay / duration) * DaysAmortized)
  }

  /** The bonus never makes a recipe dearer while construction costs are non-negative. */
  lemma CogcNeverRaisesCost(inputTotal: real, construction: real, out: int, duration: real)
    requires out > 0 && duration > 0.0 && construction >= 0.0
    ensures UnitCost(inputTotal, construction, out, CogcSpeedup * duration) <= UnitCost(inputTotal, construction, out, duration)
  {
    var k := out as real * MsInDay * DaysAmortized;
    assert k > 0.0;
    assert out as real * (MsInDay / duration) * DaysAmortized == k / duration;
    assert out as real * (MsInDay / (CogcSpeedup * duration)) * DaysAmortized == k / (CogcSpeedup * duration);
    assert construction / (k / duration) == construction * duration / k;
    assert construction / (k / (CogcSpeedup * duration)) == construction * (CogcSpeedup * duration) / k;
    assert construction * (CogcSpeedup * duration) <= construction * duration;
  }

  /** A sub-building without a planet takes the input's planet when it has one, else this recipe's. */
  function Assign(b: RecommendedBuilding, inputPlanet: Option<string>, planet: Option<string>): (r: RecommendedBuilding)
    ensures b.planetId.Some? ==> r == b
    ensures b.planetId.None? ==> r == b.(planetId := if TruthyId(inputPlanet) then inputPlanet else planet)
  {
    if b.planetId.None? then b.(planetId := if TruthyId(inputPlanet) then inputPlanet else planet) else b
  }

  /** The loop over an input's sub-buildings that fills in missing planets. */
  function Reassign(subs: seq<RecommendedBuilding>, inputPlanet: Option<string>, planet: Option<string>)
    : (r: seq<RecommendedBuilding>)
    ensures |r| == |subs|
    ensures forall i :: 0 <= i < |subs| ==> r[i] == Assign(subs[i], inputPlanet, planet)
  {
    if subs == [] then []
    else Reassign(subs[..|subs| - 1], inputPlanet, planet) + [Assign(subs[|subs| - 1], inputPlanet, planet)]
  }

  /** The chain building appended for the chosen recipe, when its ticker is non-empty and defined. */
  function WithMainBuilding(c: Ctx, s: Scan): seq<RecommendedBuilding>
  {
    if TruthyId(s.building) && s.building.value in c.st.buildings then
      s.subs + [RecommendedBuilding(s.building.value, c.st.buildings[s.building.value].name, 1,
                                    s.construction, s.planet, None)]
    else s.subs
  }

  /**
   * The final comparison of buying against the best recipe: the final
   * material is produced exactly when a recipe was chosen and is never
   * bought; an intermediate is bought exactly when buying costs at most the
   * best recipe.
   */
  function Decide(c: Ctx, s: Scan, buy: Cost, isFinal: bool): (r: Resolution)
    ensures isFinal ==> r.source != Buy && (r.source == Produce <==> s.building.Some?)
    ensures !isFinal ==> r.source != Unknown && (r.source == Buy <==> buy.AtMost(s.best))
    ensures r.source == Buy ==> r.cost == buy && r.buildings == [] && r.planet.None?
    ensures r.source == Produce ==> r.cost == s.best && r.planet == s.planet
    ensures r.source == Unknown ==> r == Resolution(Inf, Unknown, [], None)
  {
    if isFinal then
      if s.building.Some? then Resolution(s.best, Produce, WithMainBuilding(c, s), s.planet)
      else Resolution(Inf, Unknown, [], None)
    else if buy.AtMost(s.best) then Resolution(buy, Buy, [], None)
    else Resolution(s.best, Produce, WithMainBuilding(c, s), s.planet)
  }

  /**
   * One iteration of the recipe loop: a strictly cheaper recipe replaces the
   * best one. The best cost never rises, ends at most the recipe's unit cost,
   * and changes only to that unit cost, together with the recipe's building.
   */
  function Step(acc: Scan, r: Recipe, o: Outcome): (next: Scan)
    ensures next.best.AtMost(acc.best)
    ensures HasUnit(o) ==> next.best.AtMost(Fin(o.unit.value))
    ensures next.best != acc.best ==> HasUnit(o) && next.best == Fin(o.unit.value) && next.building == Some(r.buildingTicker)
  {
    match o
    case Skipped => acc
    case Costed(cons, unit, subs, planet) =>
      if unit.Some? && Fin(unit.value).Less(acc.best) then Scan(Fin(unit.value), Some(r.buildingTicker), subs, planet, cons)
      else acc.(construction := cons)
  }

  /** The resolver for material `t` at `depth`. */
  function Resolve(c: Ctx, t: string, depth: nat, preferred: Option<string>, isFinal: bool): Resolution
    decreases Budget(depth, c.maxDepth), 3, 0
  {
    if depth > c.maxDepth then
      var q := FirstQuote(c.st.market, t);
      if q.Some? && q.value.priceAverage.Some? then Resolution(Fin(q.value.priceAverage.value), Buy, [], None)
      else Resolution(Inf, Unknown, [], None)
    else
      var possible := PossibleRecipes(c.st.recipes, t);
      Decide(c, ScanRecipes(c, t, depth, preferred, possible, 0, InitialScan), BuyPrice(c.st.market, t), isFinal)
  }

  /** The recipe loop from position `i` on, with the best-so-far state `acc`. */
  function ScanRecipes(c: Ctx, t: string, depth: nat, preferred: Option<string>, possible: seq<Recipe>, i: nat, acc: Scan)
    : Scan
    requires depth <= c.maxDepth && i <= |possible|
    decreases Budget(depth, c.maxDepth), 2, |possible| - i
  {
    if i == |possible| then acc
    else ScanRecipes(c, t, depth, preferred, possible, i + 1,
                     Step(acc, possible[i], EvalRecipe(c, t, depth, preferred, possible[i], i)))
  }

  /** The selector's answer for the recipe at position `k`, when production has no planet yet. */
  function SelectedPlanet(c: Ctx, t: string, r: Recipe, k: nat): Option<PlanetData>
  {
    SelectPlanet(c.st, MaterialCategory(c.st.recipes, c.st.buildings, t), r.buildingTicker, c.env.now, c.env.choose(k))
  }

  /** Costs one candidate recipe (the body of the recipe loop). */
  function EvalRecipe(c: Ctx, t: string, depth: nat, preferred: Option<string>, r: Recipe, k: nat): Outcome
    requires depth <= c.maxDepth
    decreases Budget(depth, c.maxDepth), 1, 0
  {
    if preferred.None? && (c.st.planets == [] || SelectedPlanet(c, t, r, k).None?) then Skipped
    else
      var planet := if preferred.Some? then preferred else Some(SelectedPlanet(c, t, r, k).value.planetId);
      match ScanInputs(c, depth, planet, r.inputs, 0, InputCost(0.0, []))
      case None => Skipped
      case Some(ins) =>
        if r.buildingTicker !in c.st.buildings then Skipped
        else
          var cons := ConstructionCost(c.st, r.buildingTicker);
          var duration := EffectiveDuration(c, t, r, planet);
          var out := OutputAmount(r.outputs, t);
          Costed(cons, if out > 0 && duration > 0.0 then Some(UnitCost(ins.total, cons, out, duration)) else None,
                 ins.subs, planet)
  }

  /** The input loop from position `j` on; None as soon as one input cannot be acquired. */
  function ScanInputs(c: Ctx, depth: nat, planet: Option<string>, inputs: seq<RecipeItem>, j: nat, acc: InputCost)
    : Option<InputCost>
    requires depth <= c.maxDepth && j <= |inputs|
    decreases Budget(depth, c.maxDepth), 0, |inputs| - j
  {
    if j == |inputs| then Some(acc)
    else
      var res := Resolve(c, inputs[j].ticker, depth + 1, planet, false);
      if res.cost.Inf? then None
      else ScanInputs(c, depth, planet, inputs, j + 1, AddInput(acc, inputs[j], res, planet))
  }

  /** One step of the input loop: stop at an infinite input cost, else add the input. */
  lemma ScanInputsStep(c: Ctx, depth: nat, planet: Option<string>, inputs: seq<RecipeItem>, j: nat, acc: InputCost)
    requires depth <= c.maxDepth && j < |inputs|
    ensures var res := Resolve(c, inputs[j].ticker, depth + 1, planet, false);
      ScanInputs(c, depth, planet, inputs, j, acc) ==
        if res.cost.Inf? then None
        else ScanInputs(c, depth, planet, inputs, j + 1, AddInput(acc, inputs[j], res, planet))
  {
  }

  /** One iteration of the input loop: add the input's cost and its (re-planeted) sub-buildings. */
  function AddInput(acc: InputCost, item: RecipeItem, res: Resolution, planet: Option<string>): InputCost
    requires res.cost.Fin?
  {
    InputCost(acc.total + item.amount as real * res.cost.value, acc.subs + Reassign(res.buildings, res.planet, planet))
  }

  // ---- properties of the specification ----

  /** Beyond the depth limit the resolver only reads the average price of the first quote. */
  lemma DepthLimitFallsBack(c: Ctx, t: string, depth: nat, preferred: Option<string>, isFinal: bool)
    requires depth > c.maxDepth
    ensures Resolve(c, t, depth, preferred, isFinal).buildings == []
    ensures Resolve(c, t, depth, preferred, isFinal).planet.None?
    ensures Resolve(c, t, depth, preferred, isFinal).source == Buy <==>
      FirstQuote(c.st.market, t).Some? && FirstQuote(c.st.market, t).value.priceAverage.Some?
    ensures Resolve(c, t, depth, preferred, isFinal).source == Buy ==>
      Resolve(c, t, depth, preferred, isFinal).cost == Fin(FirstQuote(c.st.market, t).value.priceAverage.value)
    ensures Resolve(c, t, depth, preferred, isFinal).source != Buy ==>
      Resolve(c, t, depth, preferred, isFinal).source == Unknown && Resolve(c, t, depth, preferred, isFinal).cost == Inf
  {
  }

  /** The scan's best cost is finite exactly when it has chosen a recipe. */
  predicate ScanConsistent(s: Scan)
  {
    s.building.Some? <==> s.best.Fin?
  }

  /** The outcome of the candidate at position `j`. */
  function OutcomeAt(c: Ctx, t: string, depth: nat, preferred: Option<string>, possible: seq<Recipe>, j: nat): Outcome
    requires depth <= c.maxDepth && j < |possible|
  {
    EvalRecipe(c, t, depth, preferred, possible[j], j)
  }

  predicate HasUnit(o: Outcome)
  {
    o.Costed? && o.unit.Some?
  }

  /**
   * The recipe loop keeps its best cost at or below every unit cost seen,
   * never raises it, keeps it consistent, and every best cost it reports
   * was the unit cost of some candidate (or came in with `acc`).
   */
  lemma {:induction false} ScanFindsMinimum(c: Ctx, t: string, depth: nat, preferred: Option<string>,
                                            possible: seq<Recipe>, i: nat, acc: Scan)
    requires depth <= c.maxDepth && i <= |possible|
    requires ScanConsistent(acc)
    ensures ScanConsistent(ScanRecipes(c, t, depth, preferred, possible, i, acc))
    ensures ScanRecipes(c, t, depth, preferred, possible, i, acc).best.AtMost(acc.best)
    ensures forall j :: i <= j < |possible| && HasUnit(OutcomeAt(c, t, depth, preferred, possible, j)) ==>
      ScanRecipes(c, t, depth, preferred, possible, i, acc).best.AtMost(Fin(OutcomeAt(c, t, depth, preferred, possible, j).unit.value))
    ensures ScanRecipes(c, t, depth, preferred, possible, i, acc).best == acc.best
      || (exists j :: i <= j < |possible| && HasUnit(OutcomeAt(c, t, depth, preferred, possible, j))
            && ScanRecipes(c, t, depth, preferred, possible, i, acc).best == Fin(OutcomeAt(c, t, depth, preferred, possible, j).unit.value))
  {
    ScanStaysConsistent(c, t, depth, preferred, possible, i, acc);
    ScanNeverRaises(c, t, depth, preferred, possible, i, acc);
    forall j | i <= j < |possible| && HasUnit(OutcomeAt(c, t, depth, preferred, possible, j))
      ensures ScanRecipes(c, t, depth, preferred, possible, i, acc).best.AtMost(Fin(OutcomeAt(c, t, depth, preferred, possible, j).unit.value))
    {
      ScanBelow(c, t, depth, preferred, possible, i, acc, j);
    }
    ScanAttained(c, t, depth, preferred, possible, i, acc);
  }

  /** The scan keeps its best cost finite exactly when it has chosen a recipe. */
  lemma {:induction false} ScanStaysConsistent(c: Ctx, t: string, depth: nat, preferred: Option<string>,
                                               possible: seq<Recipe>, i: nat, acc: Scan)
    requires depth <= c.maxDepth && i <= |possible|
    requires ScanConsistent(acc)
    ensures ScanConsistent(ScanRecipes(c, t, depth, preferred, possible, i, acc))
    decreases |possible| - i
  {
    if i < |possible| {
      var next := Step(acc, possible[i], OutcomeAt(c, t, depth, preferred, possible, i));
      assert ScanConsistent(next);
      ScanStaysConsistent(c, t, depth, preferred, possible, i + 1, next);
    }
  }

  /** The scan's best cost is at most the unit cost of the candidate at `j`. */
  lemma {:induction false} ScanBelow(c: Ctx, t: string, depth: nat, preferred: Option<string>,
                                     possible: seq<Recipe>, i: nat, acc: Scan, j: nat)
    requires depth <= c.maxDepth && i <= j < |possible|
    requires HasUnit(OutcomeAt(c, t, depth, preferred, possible, j))
    ensures ScanRecipes(c, t, depth, preferred, possible, i, acc).best.AtMost(Fin(OutcomeAt(c, t, depth, preferred, possible, j).unit.value))
    decreases |possible| - i
  {
    var o := OutcomeAt(c, t, depth, preferred, possible, i);
    var next := Step(acc, possible[i], o);
    assert ScanRecipes(c, t, depth, preferred, possible, i, acc) == ScanRecipes(c, t, depth, preferred, possible, i + 1, next);
    if i == j {
      var u := Fin(o.unit.value);
      assert next.best.AtMost(u);
      ScanNeverRaises(c, t, depth, preferred, possible, i + 1, next);
    } else {
      ScanBelow(c, t, depth, preferred, possible, i + 1, next, j);
    }
  }

  /** The scan never raises the best cost (whatever the state it starts from). */
  lemma {:induction false} ScanNeverRaises(c: Ctx, t: string, depth: nat, preferred: Option<string>,
                                           possible: seq<Recipe>, i: nat, acc: Scan)
    requires depth <= c.maxDepth && i <= |possible|
    ensures ScanRecipes(c, t, depth, preferred, possible, i, acc).best.AtMost(acc.best)
    decreases |possible| - i
  {
    if i < |possible| {
      var next := Step(acc, possible[i], OutcomeAt(c, t, depth, preferred, possible, i));
      assert next.best.AtMost(acc.best);
      ScanNeverRaises(c, t, depth, preferred, possible, i + 1, next);
    }
  }

  /** The scan's best cost came in with `acc` or is the unit cost of a candidate. */
  lemma {:induction false} ScanAttained(c: Ctx, t: string, depth: nat, preferred: Option<string>,
                                        possible: seq<Recipe>, i: nat, acc: Scan)
    requires depth <= c.maxDepth && i <= |possible|
    ensures ScanRecipes(c, t, depth, preferred, possible, i, acc).best == acc.best
      || (exists j :: i <= j < |possible| && HasUnit(OutcomeAt(c, t, depth, preferred, possible, j))
            && ScanRecipes(c, t, depth, preferred, possible, i, acc).best == Fin(OutcomeAt(c, t, depth, preferred, possible, j).unit.value))
    decreases |possible| - i
  {
    if i < |possible| {
      var o := OutcomeAt(c, t, depth, preferred, possible, i);
      var next := Step(acc, possible[i], o);
      ScanAttained(c, t, depth, preferred, possible, i + 1, next);
      var res := ScanRecipes(c, t, depth, preferred, possible, i + 1, next);
      assert res == ScanRecipes(c, t, depth, preferred, possible, i, acc);
      if res.best != next.best {
        var j :| i + 1 <= j < |possible| && HasUnit(OutcomeAt(c, t, depth, preferred, possible, j))
          && res.best == Fin(OutcomeAt(c, t, depth, preferred, possible, j).unit.value);
      } else if next.best != acc.best {
        assert HasUnit(o) && next.best == Fin(o.unit.value);
      }
    }
  }

  /**
   * The decision rule. The final material is never bought, and UNKNOWN
   * comes at infinite cost with nothing else. An intermediate is never
   * UNKNOWN; bought, it costs the buy price, and produced, it is strictly
   * cheaper than buying. A produced material has a finite cost, and an
   * infinite cost comes with no buildings. That a costed recipe makes the
   * final material PRODUCE, and that buying is chosen exactly when it is no
   * dearer than every costed recipe, are the three lemmas that follow.
   */
  lemma ResolveDecision(c: Ctx, t: string, depth: nat, preferred: Option<string>, isFinal: bool)
    requires depth <= c.maxDepth
    ensures isFinal ==> Resolve(c, t, depth, preferred, isFinal).source != Buy
    ensures !isFinal ==> Resolve(c, t, depth, preferred, isFinal).source != Unknown
    ensures !isFinal && Resolve(c, t, depth, preferred, isFinal).source == Buy ==>
      Resolve(c, t, depth, preferred, isFinal).cost == BuyPrice(c.st.market, t)
    ensures !isFinal && Resolve(c, t, depth, preferred, isFinal).source == Produce ==>
      Resolve(c, t, depth, preferred, isFinal).cost.Less(BuyPrice(c.st.market, t))
    ensures Resolve(c, t, depth, preferred, isFinal).source == Produce ==> Resolve(c, t, depth, preferred, isFinal).cost.Fin?
    ensures Resolve(c, t, depth, preferred, isFinal).cost.Inf? ==> Resolve(c, t, depth, preferred, isFinal).buildings == []
    ensures (Resolve(c, t, depth, preferred, isFinal).source == Unknown) ==>
      Resolve(c, t, depth, preferred, isFinal) == Resolution(Inf, Unknown, [], None)
  {
    var possible := PossibleRecipes(c.st.recipes, t);
    ScanFindsMinimum(c, t, depth, preferred, possible, 0, InitialScan);
  }

  /** The final material is produced whenever some candidate recipe was costed. */
  lemma FinalProducedWhenCosted(c: Ctx, t: string, depth: nat, preferred: Option<string>, j: nat)
    requires depth <= c.maxDepth
    requires j < |PossibleRecipes(c.st.recipes, t)|
    requires HasUnit(OutcomeAt(c, t, depth, preferred, PossibleRecipes(c.st.recipes, t), j))
    ensures Resolve(c, t, depth, preferred, true).source == Produce
  {
    ScanFindsMinimum(c, t, depth, preferred, PossibleRecipes(c.st.recipes, t), 0, InitialScan);
  }

  /** An intermediate is bought only when buying costs at most every costed recipe. */
  lemma BoughtOnlyWhenNoCheaperRecipe(c: Ctx, t: string, depth: nat, preferred: Option<string>, j: nat)
    requires depth <= c.maxDepth
    requires j < |PossibleRecipes(c.st.recipes, t)|
    requires HasUnit(OutcomeAt(c, t, depth, preferred, PossibleRecipes(c.st.recipes, t), j))
    requires Resolve(c, t, depth, preferred, false).source == Buy
    ensures BuyPrice(c.st.market, t).AtMost(Fin(OutcomeAt(c, t, depth, preferred, PossibleRecipes(c.st.recipes, t), j).unit.value))
  {
    ScanFindsMinimum(c, t, depth, preferred, PossibleRecipes(c.st.recipes, t), 0, InitialScan);
  }

  /** Conversely, an intermediate is bought when buying costs at most every costed recipe (or none was costed). */
  lemma BoughtWhenNoCheaperRecipe(c: Ctx, t: string, depth: nat, preferred: Option<string>)
    requires depth <= c.maxDepth
    requires forall j :: 0 <= j < |PossibleRecipes(c.st.recipes, t)|
               && HasUnit(OutcomeAt(c, t, depth, preferred, PossibleRecipes(c.st.recipes, t), j))
               ==> BuyPrice(c.st.market, t).AtMost(Fin(OutcomeAt(c, t, depth, preferred, PossibleRecipes(c.st.recipes, t), j).unit.value))
    ensures Resolve(c, t, depth, preferred, false).source == Buy
  {
    var possible := PossibleRecipes(c.st.recipes, t);
    ScanFindsMinimum(c, t, depth, preferred, possible, 0, InitialScan);
  }

  /**
   * A produced material costs no more than any recipe for it that was
   * costed, and exactly what one of them costs: the best recipe is the
   * minimum over the candidates.
   */
  lemma ProduceIsCheapestRecipe(c: Ctx, t: string, depth: nat, preferred: Option<string>, isFinal: bool)
    requires depth <= c.maxDepth
    requires Resolve(c, t, depth, preferred, isFinal).source == Produce
    ensures forall j ::
      (0 <= j < |PossibleRecipes(c.st.recipes, t)| && HasUnit(OutcomeAt(c, t, depth, preferred, PossibleRecipes(c.st.recipes, t), j)))
      ==> Resolve(c, t, depth, preferred, isFinal).cost.AtMost(Fin(OutcomeAt(c, t, depth, preferred, PossibleRecipes(c.st.recipes, t), j).unit.value))
    ensures exists j ::
      (0 <= j < |PossibleRecipes(c.st.recipes, t)|
       && HasUnit(OutcomeAt(c, t, depth, preferred, PossibleRecipes(c.st.recipes, t), j))
       && Resolve(c, t, depth, preferred, isFinal).cost == Fin(OutcomeAt(c, t, depth, preferred, PossibleRecipes(c.st.recipes, t), j).unit.value))
  {
    var possible := PossibleRecipes(c.st.recipes, t);
    ScanFindsMinimum(c, t, depth, preferred, possible, 0, InitialScan);
  }

  /**
   * Every recommended building is a defined building, one per chain set,
   * has no site yet and has a planet; under a preferred planet it is that
   * planet (inputs inherit their parent's planet).
   */
  predicate ChainBuildings(c: Ctx, bs: seq<RecommendedBuilding>, preferred: Option<string>)
  {
    forall i :: 0 <= i < |bs| ==>
      (bs[i].ticker in c.st.buildings && bs[i].amount == 1 && bs[i].siteId.None?
       && bs[i].planetId.Some? && (preferred.Some? ==> bs[i].planetId == preferred))
  }

  predicate ScanChain(c: Ctx, s: Scan, preferred: Option<string>)
  {
    ChainBuildings(c, s.subs, preferred) && (s.building.Some? ==> s.planet.Some? && (preferred.Some? ==> s.planet == preferred))
  }

  lemma ChainConcat(c: Ctx, a: seq<RecommendedBuilding>, b: seq<RecommendedBuilding>, preferred: Option<string>)
    requires ChainBuildings(c, a, preferred) && ChainBuildings(c, b, preferred)
    ensures ChainBuildings(c, a + b, preferred)
  {
    forall i | 0 <= i < |a + b| ensures (a + b)[i] == if i < |a| then a[i] else b[i - |a|] {}
  }

  lemma {:induction false} ResolveChain(c: Ctx, t: string, depth: nat, preferred: Option<string>, isFinal: bool)
    ensures ChainBuildings(c, Resolve(c, t, depth, preferred, isFinal).buildings, preferred)
    decreases Budget(depth, c.maxDepth), 3, 0
  {
    if depth <= c.maxDepth {
      var possible := PossibleRecipes(c.st.recipes, t);
      ScanChainRecipes(c, t, depth, preferred, possible, 0, InitialScan);
      var s := ScanRecipes(c, t, depth, preferred, possible, 0, InitialScan);
      if TruthyId(s.building) && s.building.value in c.st.buildings {
        var main := RecommendedBuilding(s.building.value, c.st.buildings[s.building.value].name, 1, s.construction, s.planet, None);
        ChainConcat(c, s.subs, [main], preferred);
      }
    }
  }

  lemma {:induction false} ScanChainRecipes(c: Ctx, t: string, depth: nat, preferred: Option<string>,
                                            possible: seq<Recipe>, i: nat, acc: Scan)
    requires depth <= c.maxDepth && i <= |possible|
    requires ScanChain(c, acc, preferred)
    ensures ScanChain(c, ScanRecipes(c, t, depth, preferred, possible, i, acc), preferred)
    decreases Budget(depth, c.maxDepth), 2, |possible| - i
  {
    if i < |possible| {
      EvalChain(c, t, depth, preferred, possible[i], i);
      ScanChainRecipes(c, t, depth, preferred, possible, i + 1,
                       Step(acc, possible[i], EvalRecipe(c, t, depth, preferred, possible[i], i)));
    }
  }

  lemma {:induction false} EvalChain(c: Ctx, t: string, depth: nat, preferred: Option<string>, r: Recipe, k: nat)
    requires depth <= c.maxDepth
    ensures EvalRecipe(c, t, depth, preferred, r, k).Costed? ==>
      var o := EvalRecipe(c, t, depth, preferred, r, k);
      ChainBuildings(c, o.subs, preferred) && o.planet.Some? && (preferred.Some? ==> o.planet == preferred)
    decreases Budget(depth, c.maxDepth), 1, 0
  {
    if !(preferred.None? && (c.st.planets == [] || SelectedPlanet(c, t, r, k).None?)) {
      var planet := if preferred.Some? then preferred else Some(SelectedPlanet(c, t, r, k).value.planetId);
      InputsChain(c, depth, planet, r.inputs, 0, InputCost(0.0, []));
      var ins := ScanInputs(c, depth, planet, r.inputs, 0, InputCost(0.0, []));
      if ins.Some? {
        assert ChainBuildings(c, ins.value.subs, planet);
      }
    }
  }

  lemma {:induction false} InputsChain(c: Ctx, depth: nat, planet: Option<string>, inputs: seq<RecipeItem>, j: nat, acc: InputCost)
    requires depth <= c.maxDepth && j <= |inputs|
    requires planet.Some? && ChainBuildings(c, acc.subs, planet)
    ensures ScanInputs(c, depth, planet, inputs, j, acc).Some? ==> ChainBuildings(c, ScanInputs(c, depth, planet, inputs, j, acc).value.subs, planet)
    decreases Budget(depth, c.maxDepth), 0, |inputs| - j
  {
    if j < |inputs| {
      var res := Resolve(c, inputs[j].ticker, depth + 1, planet, false);
      if res.cost.Fin? {
        ResolveChain(c, inputs[j].ticker, depth + 1, planet, false);
        var moved := Reassign(res.buildings, res.planet, planet);
        assert moved == res.buildings;
        ChainConcat(c, acc.subs, moved, planet);
        var next := AddInput(acc, inputs[j], res, planet);
        assert ScanInputs(c, depth, planet, inputs, j, acc) == ScanInputs(c, depth, planet, inputs, j + 1, next);
        InputsChain(c, depth, planet, inputs, j + 1, next);
      }
    }
  }

  // ---- the imperative resolver ----

  /** The cost-item loop: materials for one building at market prices. */
  method ComputeConstructionCost(st: State, b: string) returns (total: real)
    ensures total == ConstructionCost(st, b)
  {
    var items := if b in st.buildingCosts then st.buildingCosts[b] else [];
    total := 0.0;
    var i := 0;
    while i < |items|
      invariant 0 <= i <= |items|
      invariant total == SumCostItems(st.market, items[..i])
    {
      assert items[..i + 1][..i] == items[..i];
      total := total + items[i].amount * ItemPrice(st.market, items[i].ticker);
      i := i + 1;
    }
    assert items[..|items|] == items;
  }

  /** The loop that gives planet-less sub-buildings a planet. */
  method ReassignPlanets(subs: seq<RecommendedBuilding>, inputPlanet: Option<string>, planet: Option<string>)
    returns (r: seq<RecommendedBuilding>)
    ensures r == Reassign(subs, inputPlanet, planet)
  {
    r := [];
    var i := 0;
    while i < |subs|
      invariant 0 <= i <= |subs| && |r| == i
      invariant forall j :: 0 <= j < i ==> r[j] == Assign(subs[j], inputPlanet, planet)
    {
      var b := subs[i];
      if b.planetId.None? {
        b := b.(planetId := if TruthyId(inputPlanet) then inputPlanet else planet);
      }
      r := r + [b];
      i := i + 1;
    }
  }

  /** The effective duration, with the program loop stopping at the first match. */
  method ComputeEffectiveDuration(c: Ctx, t: string, r: Recipe, planet: Option<string>) returns (duration: real)
    ensures duration == EffectiveDuration(c, t, r, planet)
  {
    duration := r.durationMs as real;
    if TruthyId(planet) {
      var pd := FindPlanet(c.st.planets, planet.value);
      if pd.Some? {
        var category := GetMaterialProductionCategory(c.st.recipes, c.st.buildings, t);
        if category.Some? {
          var active := CheckActiveProgram(pd.value, ProgramTypeFor(category.value), c.env.now);
          if active {
            duration := duration * CogcSpeedup;
          }
        }
      }
    }
  }

  method ResolveCost(c: Ctx, t: string, depth: nat, preferred: Option<string>, isFinal: bool) returns (res: Resolution)
    ensures res == Resolve(c, t, depth, preferred, isFinal)
    decreases Budget(depth, c.maxDepth), 3
  {
    if depth > c.maxDepth {
      var q := FirstQuote(c.st.market, t);
      if q.Some? && q.value.priceAverage.Some? {
        return Resolution(Fin(q.value.priceAverage.value), Buy, [], None);
      }
      return Resolution(Inf, Unknown, [], None);
    }
    var buy := BuyPrice(c.st.market, t);
    var possible := PossibleRecipes(c.st.recipes, t);
    var scan := InitialScan;
    var i := 0;
    while i < |possible|
      invariant 0 <= i <= |possible|
      invariant ScanRecipes(c, t, depth, preferred, possible, i, scan) == ScanRecipes(c, t, depth, preferred, possible, 0, InitialScan)
    {
      var o := EvaluateRecipe(c, t, depth, preferred, possible[i], i);
      scan := Step(scan, possible[i], o);
      i := i + 1;
    }
    res := Decide(c, scan, buy, isFinal);
  }

  method EvaluateRecipe(c: Ctx, t: string, depth: nat, preferred: Option<string>, r: Recipe, k: nat) returns (o: Outcome)
    requires depth <= c.maxDepth
    ensures o == EvalRecipe(c, t, depth, preferred, r, k)
    decreases Budget(depth, c.maxDepth), 1
  {
    var planet := preferred;
    if planet.None? {
      if c.st.planets == [] {
        return Skipped;
      }
      var category := GetMaterialProductionCategory(c.st.recipes, c.st.buildings, t);
      var best := FindBestExpansionPlanet(c.st, category, r.buildingTicker, c.env.now, c.env.choose(k));
      if best.None? {
        return Skipped;
      }
      planet := Some(best.value.planetId);
    }
    var ins := CostInputs(c, depth, planet, r.inputs);
    if ins.None? {
      return Skipped;
    }
    if r.buildingTicker !in c.st.buildings {
      return Skipped;
    }
    var cons := ComputeConstructionCost(c.st, r.buildingTicker);
    var duration := ComputeEffectiveDuration(c, t, r, planet);
    var out := OutputAmount(r.outputs, t);
    var unit: Option<real> := None;
    if out > 0 && duration > 0.0 {
      unit := Some(UnitCost(ins.value.total, cons, out, duration));
    }
    o := Costed(cons, unit, ins.value.subs, planet);
  }

  /** `total_input_cost += input.amount * input_cost` and `sub_buildings.extend(...)` for one input. */
  method AddInputCost(total: real, subs: seq<RecommendedBuilding>, item: RecipeItem, res: Resolution, planet: Option<string>)
    returns (total': real, subs': seq<RecommendedBuilding>)
    requires res.cost.Fin?
    ensures InputCost(total', subs') == AddInput(InputCost(total, subs), item, res, planet)
  {
    var moved := ReassignPlanets(res.buildings, res.planet, planet);
    total' := total + item.amount as real * res.cost.value;
    subs' := subs + moved;
  }

  method CostInputs(c: Ctx, depth: nat, planet: Option<string>, inputs: seq<RecipeItem>) returns (ins: Option<InputCost>)
    requires depth <= c.maxDepth
    ensures ins == ScanInputs(c, depth, planet, inputs, 0, InputCost(0.0, []))
    decreases Budget(depth, c.maxDepth), 0
  {
    var total := 0.0;
    var subs: seq<RecommendedBuilding> := [];
    var j := 0;
    while j < |inputs|
      invariant 0 <= j <= |inputs|
      invariant ScanInputs(c, depth, planet, inputs, j, InputCost(total, subs)) == ScanInputs(c, depth, planet, inputs, 0, InputCost(0.0, []))
    {
      var res := ResolveCost(c, inputs[j].ticker, depth + 1, planet, false);
      ScanInputsStep(c, depth, planet, inputs, j, InputCost(total, subs));
      if res.cost.Inf? {
        return None;
      }
      total, subs := AddInputCost(total, subs, inputs[j], res, planet);
      j := j + 1;
    }
    ins := Some(InputCost(total, subs));
  }
}
