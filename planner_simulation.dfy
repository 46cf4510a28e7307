/**
 * `run_simulation`: the production gap for a material, the chain that
 * closes it, where its buildings go, the housing their workforce needs and
 * the permits each new site must buy.
 */
module Simulation {
  import opened Wrappers
  import opened PlannerModel
  import opened ProductionRates
  import opened RecipeCatalog
  import opened CostResolver
  import opened Placement
  import opened Housing

  /** Units per day one building of the top-level recipe makes; 0 without a recipe or with no duration. */
  function RatePerBuilding(st: State, t: string): real
  {
    var best := FindBestRecipeAndBuilding(st.recipes, st.buildings, t, None, None);
    if best.0.Some? && TruthyId(best.1) && best.0.value.durationMs > 0 then
      (OutputAmount(best.0.value.outputs, t) as real / best.0.value.durationMs as real) * MsInDay
    else 0.0
  }

  /** The chain is built in enough sets to close the gap, short of at most a hundredth of one set's output. */
  lemma ChainSetsCoverGap(gap: real, rate: real)
    requires gap > 0.0 && rate > 0.0
    ensures CountFor(gap, rate) >= 1
    ensures CountFor(gap, rate) as real * rate > gap - rate / 100.0
    ensures (CountFor(gap, rate) - 1) as real * rate < gap
  {
    CountForCovers(gap, rate);
  }

  /** The resolver context of a simulation: the HQ planet is preferred and the recursion limit is MAX_RECURSION_DEPTH. */
  function TopContext(st: State, env: Env): Ctx
  {
    Ctx(st, env, MaxRecursionDepth)
  }

  lemma PassesKeepIds(st: State, placed: seq<RecommendedPlanet>, planets: seq<RecommendedPlanet>, goal: Option<string>)
    requires UniqueIds(placed) && |planets| == |placed|
    requires forall i :: 0 <= i < |placed| ==> planets[i] == WithPermits(st, HousePlanet(st, placed[i], goal))
    ensures UniqueIds(planets)
  {
    forall i | 0 <= i < |placed| ensures planets[i].planetId == placed[i].planetId {
      HousePlanetKeeps(st, placed[i], goal);
    }
  }

  /**
   * The recommendation: the current production and the gap; nothing when
   * the target is met; otherwise the planets the placement of the resolved
   * chain chose, in enough sets to close the gap (each within the
   * production area, ids unique), each with its housing appended and its
   * permit fee added, and a total that is the sum of the planets' costs.
   * A material that cannot be produced, or whose recipe has no rate, gets
   * no planets.
   */
  method RunSimulation(st: State, env: Env, t: string, target: real, goal: Option<string>)
    returns (r: Recommendation, ghost placed: seq<RecommendedPlanet>)
    ensures r.ticker == t && r.target == target
    ensures r.current == CurrentProduction(st, t, None) && r.gap == target - r.current
    ensures r.gap <= 0.0 ==> r.planets == [] && r.totalCost == 0.0
    ensures r.totalCost == PlanCost(r.planets)
    ensures PlanValid(st, placed) && UniqueIds(r.planets)
    ensures |r.planets| == |placed|
    ensures forall i :: 0 <= i < |placed| ==> r.planets[i] == WithPermits(st, HousePlanet(st, placed[i], goal))
    ensures var res := Resolve(TopContext(st, env), t, 0, st.hqPlanet, true);
      var rate := RatePerBuilding(st, t);
      placed == if r.gap > 0.0 && res.source == Produce && rate > 0.0 then PlaceAll(st, env, res.buildings, CountFor(r.gap, rate)).plan
                else []
  {
    var current := CalculateCurrentProduction(st, t, None);
    var gap := target - current;
    if gap <= 0.0 {
      return Recommendation(t, target, current, gap, [], 0.0), [];
    }
    var c := TopContext(st, env);
    var res := ResolveCost(c, t, 0, st.hqPlanet, true);
    var plan: seq<RecommendedPlanet> := [];
    var overall := 0.0;
    // The top-level material is never bought (ResolveDecision), so the
    // source's purchase branch is unreachable; Unknown plans nothing.
    if res.source == Produce {
      var rate := RatePerBuilding(st, t);
      if rate > 0.0 {
        var sets := CountFor(gap, rate);
        ResolveChain(c, t, 0, st.hqPlanet, true);
        plan, overall := PlaceChain(st, env, res.buildings, sets);
      }
    }
    placed := plan;
    var housed;
    housed, overall := PlanHousing(st, plan, overall, goal);
    plan, overall := ApplyPermits(st, housed, overall);
    PassesKeepIds(st, placed, plan, goal);
    r := Recommendation(t, target, current, gap, plan, overall);
  }
}
