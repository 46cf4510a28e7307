/**
 * The placement loop of `run_simulation`: each chain building is placed,
 * a batch at a time, on a recommended planet that has room left in the
 * area a site can reach with all permits, first on a planet already
 * hosting a building of the same expertise, then on a shuffled list of
 * all planets.
 */
module Placement {
  import opened Wrappers
  import opened PyStrings
  import opened PlannerModel
  import opened RecipeCatalog
  import opened PlanetSelection
  import opened CostResolver

  /** Area taken by the buildings whose definition exists. */
  function UsedArea(st: State, bs: seq<RecommendedBuilding>): real
  {
    if bs == [] then 0.0
    else
      var b := bs[|bs| - 1];
      UsedArea(st, bs[..|bs| - 1]) + (if b.ticker in st.buildings then st.buildings[b.ticker].area * b.amount as real else 0.0)
  }

  /** `math.floor((max_total_area_on_planet - current_used_area_on_planet) / building_area_per_unit)`, or 0 for no area. */
  function Fit(used: real, area: real): int
  {
    if area > 0.0 then ((MaxProductionArea - used) / area).Floor else 0
  }

  /** Placing up to `Fit` units keeps the planet within the production area. */
  lemma FitKeepsArea(used: real, area: real, units: int)
    requires 0 < units <= Fit(used, area)
    ensures area > 0.0
    ensures used + units as real * area <= MaxProductionArea
  {
    var q := (MaxProductionArea - used) / area;
    assert units as real <= q;
    assert units as real * area <= q * area;
    assert q * area == MaxProductionArea - used;
  }

  function SumEstimated(bs: seq<RecommendedBuilding>): real
  {
    if bs == [] then 0.0 else SumEstimated(bs[..|bs| - 1]) + bs[|bs| - 1].estimatedCost
  }

  /** The sum of the planets' costs. */
  function PlanCost(plan: seq<RecommendedPlanet>): real
  {
    if plan == [] then 0.0 else PlanCost(plan[..|plan| - 1]) + plan[|plan| - 1].totalCost
  }

  lemma {:induction false} PlanCostUpdate(plan: seq<RecommendedPlanet>, k: nat, p: RecommendedPlanet)
    requires k < |plan|
    ensures PlanCost(plan[k := p]) == PlanCost(plan) - plan[k].totalCost + p.totalCost
  {
    var n := |plan| - 1;
    assert plan[k := p][..n] == if k == n then plan[..n] else plan[..n][k := p];
    if k < n {
      PlanCostUpdate(plan[..n], k, p);
    }
  }

  /** `planet_recommendations_map` is keyed by planet id. */
  predicate UniqueIds(plan: seq<RecommendedPlanet>)
  {
    forall i, j :: 0 <= i < j < |plan| ==> plan[i].planetId != plan[j].planetId
  }

  function LookupPlanet(plan: seq<RecommendedPlanet>, id: string): (k: Option<nat>)
    ensures k.Some? ==> k.value < |plan| && plan[k.value].planetId == id
    ensures k.None? ==> forall i :: 0 <= i < |plan| ==> plan[i].planetId != id
  {
    if plan == [] then None
    else if plan[|plan| - 1].planetId == id then Some(|plan| - 1)
    else LookupPlanet(plan[..|plan| - 1], id)
  }

  predicate KnownPlanet(st: State, id: string)
  {
    exists j :: 0 <= j < |st.planets| && st.planets[j].planetId == id
  }

  /** A placed production building: defined, of positive area, at least one unit, on its planet's new site. */
  predicate PlacedBuilding(st: State, p: RecommendedPlanet, b: RecommendedBuilding)
  {
    b.ticker in st.buildings && st.buildings[b.ticker].area > 0.0 && b.amount > 0
    && b.planetId == Some(p.planetId) && b.siteId == Some(p.siteId)
  }

  /**
   * What placement keeps true of a recommended planet: it is a known
   * planet, its buildings fit in 975 area units, and its cost is the sum
   * of its buildings' estimated costs.
   */
  predicate PlanetValid(st: State, p: RecommendedPlanet)
  {
    KnownPlanet(st, p.planetId)
    && UsedArea(st, p.buildings) <= MaxProductionArea
    && (forall i :: 0 <= i < |p.buildings| ==> PlacedBuilding(st, p, p.buildings[i]))
    && p.totalCost == SumEstimated(p.buildings)
  }

  predicate PlanValid(st: State, plan: seq<RecommendedPlanet>)
  {
    UniqueIds(plan) && forall i :: 0 <= i < |plan| ==> PlanetValid(st, plan[i])
  }

  /** `random.shuffle` as a given permutation (entry i names the planet moved to position i); anything else leaves the order. */
  predicate IsPermutation(perm: seq<nat>, n: nat)
  {
    |perm| == n && (forall i :: 0 <= i < n ==> perm[i] < n)
    && (forall i, j :: 0 <= i < j < n ==> perm[i] != perm[j])
  }

  function Shuffled(ps: seq<PlanetData>, perm: seq<nat>): (r: seq<PlanetData>)
    ensures |r| == |ps|
    ensures forall i :: 0 <= i < |r| ==> r[i] in ps
  {
    if IsPermutation(perm, |ps|) then seq(|ps|, i requires 0 <= i < |ps| => ps[perm[i]]) else ps
  }

  /** `f"NEW_SITE_{str(uuid.uuid4())[:8].upper()}"` for the n-th id. */
  function SiteTag(env: Env, n: nat): string
  {
    var u := env.uuid(n);
    "NEW_SITE_" + Upper(if |u| <= 8 then u else u[..8])
  }

  function NewEntry(p: PlanetData, siteId: string): RecommendedPlanet
  {
    RecommendedPlanet(p.planetId, p.planetName, p.fertility, p.resources, 0.0, [], [], siteId)
  }

  /** `dict.get(k, 0.0) + amount` stored back under k: an existing key keeps its place, a new one goes last. */
  function AddDemand(wf: seq<(string, real)>, k: string, amount: real): (r: seq<(string, real)>)
    ensures |r| == |wf| || |r| == |wf| + 1
    ensures forall i :: 0 <= i < |wf| ==> r[i].0 == wf[i].0
  {
    if wf == [] then [(k, amount)]
    else if wf[0].0 == k then [(k, wf[0].1 + amount)] + wf[1..]
    else [wf[0]] + AddDemand(wf[1..], k, amount)
  }

  /** The demand recorded for a workforce type (the first entry for it), 0 when none. */
  function Demand(wf: seq<(string, real)>, k: string): real
  {
    if wf == [] then 0.0 else if wf[0].0 == k then wf[0].1 else Demand(wf[1..], k)
  }

  /** Adding demand raises exactly that type's demand, by exactly that amount. */
  lemma {:induction false} AddDemandAdds(wf: seq<(string, real)>, k: string, amount: real, k2: string)
    ensures Demand(AddDemand(wf, k, amount), k2) == Demand(wf, k2) + (if k2 == k then amount else 0.0)
  {
    if wf != [] && wf[0].0 != k {
      AddDemandAdds(wf[1..], k, amount, k2);
    }
  }

  function WorkforceNeeds(st: State, b: string): seq<WorkforceNeed>
  {
    if b in st.buildingWorkforces then st.buildingWorkforces[b] else []
  }

  /** The staff one requirement asks for `units` buildings. */
  function NeedAmount(n: WorkforceNeed, units: int): real
  {
    n.capacityNeeded * units as real
  }

  /** The workforce loop of one placement step, over the building's requirements in order. */
  function AddNeeds(wf: seq<(string, real)>, needs: seq<WorkforceNeed>, units: int): seq<(string, real)>
  {
    if needs == [] then wf
    else AddDemand(AddNeeds(wf, needs[..|needs| - 1], units), needs[|needs| - 1].workforceType, NeedAmount(needs[|needs| - 1], units))
  }

  /** Replacing one planet by a valid one with the same id keeps the plan valid. */
  lemma PlanValidUpdate(st: State, plan: seq<RecommendedPlanet>, k: nat, p: RecommendedPlanet)
    requires PlanValid(st, plan) && k < |plan| && PlanetValid(st, p) && p.planetId == plan[k].planetId
    ensures PlanValid(st, plan[k := p])
  {
  }

  /** `sub_bldg_template.estimated_cost * units_to_place_now`. */
  function BatchCost(template: RecommendedBuilding, units: int): real
  {
    template.estimatedCost * units as real
  }

  /** One placement step's new state of the chosen planet. */
  function PlaceUnits(st: State, p: RecommendedPlanet, template: RecommendedBuilding, units: int): (q: RecommendedPlanet)
    ensures q.planetId == p.planetId && q.siteId == p.siteId && q.planetName == p.planetName
    ensures |q.buildings| == |p.buildings| + 1 && q.buildings[..|p.buildings|] == p.buildings
    ensures var b := q.buildings[|p.buildings|];
      b.ticker == template.ticker && b.amount == units && b.planetId == Some(p.planetId) && b.siteId == Some(p.siteId)
      && q.totalCost == p.totalCost + b.estimatedCost
  {
    p.(buildings := p.buildings + [RecommendedBuilding(template.ticker, template.name, units,
                                                       BatchCost(template, units),
                                                       Some(p.planetId), Some(p.siteId))],
       totalCost := p.totalCost + BatchCost(template, units),
       workforce := AddNeeds(p.workforce, WorkforceNeeds(st, template.ticker), units))
  }

  /** The new state keeps the planet valid when the units fit. */
  lemma PlaceUnitsValid(st: State, p: RecommendedPlanet, template: RecommendedBuilding, units: int)
    requires PlanetValid(st, p) && template.ticker in st.buildings
    requires 0 < units <= Fit(UsedArea(st, p.buildings), st.buildings[template.ticker].area)
    ensures PlanetValid(st, PlaceUnits(st, p, template, units))
    ensures PlaceUnits(st, p, template, units).planetId == p.planetId
  {
    var q := PlaceUnits(st, p, template, units);
    FitKeepsArea(UsedArea(st, p.buildings), st.buildings[template.ticker].area, units);
    assert q.buildings[..|q.buildings| - 1] == p.buildings;
    forall i | 0 <= i < |q.buildings| ensures PlacedBuilding(st, q, q.buildings[i]) {
      if i < |p.buildings| {
        assert q.buildings[i] == p.buildings[i];
        assert PlacedBuilding(st, p, p.buildings[i]);
      }
    }
  }

  // ---- the placement as functions of the plan and the draws ----

  /** `static_buildings.get(b).area`, 0 for an undefined building (placement only meets defined ones). */
  function AreaOf(st: State, b: string): real
  {
    if b in st.buildings then st.buildings[b].area else 0.0
  }

  /** Step 1 from the recommended planet at position i on: the first of matching expertise with room. */
  function FirstExisting(st: State, plan: seq<RecommendedPlanet>, category: string, area: real, i: nat): (k: Option<nat>)
    ensures k.Some? ==> i <= k.value < |plan| && ExistingFits(st, plan[k.value], category, area)
    decreases |plan| - i
  {
    if i >= |plan| then None
    else if ExistingFits(st, plan[i], category, area) then Some(i)
    else FirstExisting(st, plan, category, area, i + 1)
  }

  /** A planet search's outcome: the plan with the entries it added, the chosen entry and the units that fit there, and the uuids drawn. */
  datatype Pick = Pick(plan: seq<RecommendedPlanet>, idx: Option<nat>, fit: int, uuids: nat)

  /** The recommended entry for a planet exists and has no room for one more unit. */
  predicate NoRoom(st: State, plan: seq<RecommendedPlanet>, id: string, area: real)
  {
    var k := LookupPlanet(plan, id);
    k.Some? && Fit(UsedArea(st, plan[k.value].buildings), area) <= 0
  }

  /**
   * Step 2 from the shuffled planet at position i on: each suitable planet
   * gets an empty entry if it has none, and the first whose entry has room
   * is chosen.
   */
  function NewFrom(st: State, env: Env, plan: seq<RecommendedPlanet>, category: Option<string>, b: string, area: real,
                   order: seq<PlanetData>, i: nat, uuids: nat): (r: Pick)
    ensures r.idx.Some? ==> r.idx.value < |r.plan| && r.fit > 0 && r.fit == Fit(UsedArea(st, r.plan[r.idx.value].buildings), area)
    decreases |order| - i
  {
    if i >= |order| then Pick(plan, None, 0, uuids)
    else if !PlacementSuitable(st, order[i], category, b, env.now) then NewFrom(st, env, plan, category, b, area, order, i + 1, uuids)
    else
      var p := order[i];
      var k := LookupPlanet(plan, p.planetId);
      var plan1 := if k.None? then plan + [NewEntry(p, SiteTag(env, uuids))] else plan;
      var k1 := if k.None? then |plan| else k.value;
      var uuids1 := if k.None? then uuids + 1 else uuids;
      var f := Fit(UsedArea(st, plan1[k1].buildings), area);
      if f > 0 then Pick(plan1, Some(k1), f, uuids1)
      else NewFrom(st, env, plan1, category, b, area, order, i + 1, uuids1)
  }

  /** One placement step's choice, with the shuffles drawn so far. */
  datatype Choice = Choice(pick: Pick, shuffles: nat)

  /** Steps 1 and 2 for building b: step 1 when it finds a planet, else step 2 over a fresh shuffle. */
  function Choose(st: State, env: Env, plan: seq<RecommendedPlanet>, shuffles: nat, uuids: nat, b: string): (c: Choice)
    ensures c.pick.idx.Some? ==>
              c.pick.idx.value < |c.pick.plan| && c.pick.fit > 0
              && c.pick.fit == Fit(UsedArea(st, c.pick.plan[c.pick.idx.value].buildings), AreaOf(st, b))
  {
    var area := AreaOf(st, b);
    var category := BuildingCategory(st.buildings, b);
    var e := if category.Some? then FirstExisting(st, plan, category.value, area, 0) else None;
    if e.Some? then Choice(Pick(plan, e, Fit(UsedArea(st, plan[e.value].buildings), area), uuids), shuffles)
    else Choice(NewFrom(st, env, plan, category, b, area, Shuffled(st.planets, env.shuffle(shuffles)), 0, uuids), shuffles + 1)
  }

  /** Placing one chain building: the plan, the draws so far, and the units left unplaced. */
  datatype Placing = Placing(plan: seq<RecommendedPlanet>, shuffles: nat, uuids: nat, left: nat)

  /**
   * The `while remaining_amount_to_place > 0` loop: each step puts
   * min(remaining, fit) units on the chosen planet, and a step that finds
   * no planet ends the loop with the rest unplaced.
   */
  function Place(st: State, env: Env, plan: seq<RecommendedPlanet>, shuffles: nat, uuids: nat,
                 template: RecommendedBuilding, remaining: int): Placing
    decreases remaining
  {
    if remaining <= 0 then Placing(plan, shuffles, uuids, 0)
    else
      var c := Choose(st, env, plan, shuffles, uuids, template.ticker);
      match c.pick.idx
      case None => Placing(c.pick.plan, c.shuffles, c.pick.uuids, remaining)
      case Some(k) =>
        var units := if remaining < c.pick.fit then remaining else c.pick.fit;
        Place(st, env, c.pick.plan[k := PlaceUnits(st, c.pick.plan[k], template, units)], c.shuffles, c.pick.uuids,
              template, remaining - units)
  }

  /** The units one placement step puts on the chosen entry. */
  function StepUnits(c: Choice, remaining: int): int
  {
    if remaining < c.pick.fit then remaining else c.pick.fit
  }

  /** One unfolding of the placement loop, given the step's choice. */
  lemma PlaceByChoice(st: State, env: Env, plan: seq<RecommendedPlanet>, shuffles: nat, uuids: nat,
                      template: RecommendedBuilding, remaining: int, c: Choice)
    requires remaining > 0 && c == Choose(st, env, plan, shuffles, uuids, template.ticker)
    ensures c.pick.idx.None? ==> Place(st, env, plan, shuffles, uuids, template, remaining) == Placing(c.pick.plan, c.shuffles, c.pick.uuids, remaining)
    ensures c.pick.idx.Some? ==>
              var k := c.pick.idx.value;
              Place(st, env, plan, shuffles, uuids, template, remaining)
              == Place(st, env, c.pick.plan[k := PlaceUnits(st, c.pick.plan[k], template, StepUnits(c, remaining))], c.shuffles, c.pick.uuids,
                       template, remaining - StepUnits(c, remaining))
  {
  }

  /** The loop over the first n chain buildings, each placed `amount * sets` times, from an empty plan and no draws. */
  function PlacePrefix(st: State, env: Env, chain: seq<RecommendedBuilding>, sets: int, n: nat): Placing
    requires n <= |chain|
  {
    if n == 0 then Placing([], 0, 0, 0)
    else
      var acc := PlacePrefix(st, env, chain, sets, n - 1);
      var r := Place(st, env, acc.plan, acc.shuffles, acc.uuids, chain[n - 1], chain[n - 1].amount * sets);
      Placing(r.plan, r.shuffles, r.uuids, acc.left + r.left)
  }

  /** The whole placement: the loop over every chain building. */
  function PlaceAll(st: State, env: Env, chain: seq<RecommendedBuilding>, sets: int): Placing
  {
    PlacePrefix(st, env, chain, sets, |chain|)
  }

  // ---- the step methods ----

  predicate HasCategoryBuilding(st: State, bs: seq<RecommendedBuilding>, category: string)
  {
    exists i :: 0 <= i < |bs| && BuildingCategory(st.buildings, bs[i].ticker) == Some(category)
  }

  /** A recommended planet step 1 accepts: it hosts a building of the category and has room for one more. */
  predicate ExistingFits(st: State, p: RecommendedPlanet, category: string, area: real)
  {
    HasCategoryBuilding(st, p.buildings, category) && Fit(UsedArea(st, p.buildings), area) > 0
  }

  method MatchesExpertise(st: State, bs: seq<RecommendedBuilding>, category: string) returns (m: bool)
    ensures m == HasCategoryBuilding(st, bs, category)
  {
    var i := 0;
    while i < |bs|
      invariant 0 <= i <= |bs|
      invariant forall j :: 0 <= j < i ==> BuildingCategory(st.buildings, bs[j].ticker) != Some(category)
    {
      if BuildingCategory(st.buildings, bs[i].ticker) == Some(category) {
        return true;
      }
      i := i + 1;
    }
    return false;
  }

  /** Step 1: the first recommended planet with matching expertise and room, and how many units fit there. */
  method FindExisting(st: State, plan: seq<RecommendedPlanet>, category: string, area: real)
    returns (idx: Option<nat>, fit: int)
    ensures idx == FirstExisting(st, plan, category, area, 0)
    ensures idx.Some? ==> fit == Fit(UsedArea(st, plan[idx.value].buildings), area)
  {
    var i := 0;
    while i < |plan|
      invariant 0 <= i <= |plan|
      invariant FirstExisting(st, plan, category, area, 0) == FirstExisting(st, plan, category, area, i)
    {
      var m := MatchesExpertise(st, plan[i].buildings, category);
      if m {
        var f := Fit(UsedArea(st, plan[i].buildings), area);
        if f > 0 {
          return Some(i), f;
        }
      }
      i := i + 1;
    }
    return None, 0;
  }

  /** The placement loop's suitability test, with the program and resource loops. */
  method CheckPlacementSuitable(st: State, p: PlanetData, category: Option<string>, b: string, now: int)
    returns (ok: bool)
    ensures ok == PlacementSuitable(st, p, category, b, now)
  {
    if category == Some("AGRICULTURE") && p.fertility > 0.0 {
      ok := true;
    } else if category == Some("RESOURCE_EXTRACTION") {
      ok := CheckSpecificResource(st, p, b);
    } else if category.Some? && category.value in ProcessingCategories {
      var active := CheckActiveProgram(p, ProgramTypeFor(category.value), now);
      ok := active || p.hasLocalMarket || p.hasChamberOfCommerce;
    } else {
      ok := true;
    }
  }

  /** The plan after step 2 only gained empty entries. */
  predicate GrewBy(plan: seq<RecommendedPlanet>, plan': seq<RecommendedPlanet>)
  {
    |plan| <= |plan'| && plan'[..|plan|] == plan
    && forall j :: |plan| <= j < |plan'| ==> plan'[j].buildings == [] && plan'[j].totalCost == 0.0
  }

  lemma {:induction false} PlanCostGrew(plan: seq<RecommendedPlanet>, plan': seq<RecommendedPlanet>)
    requires GrewBy(plan, plan')
    ensures PlanCost(plan') == PlanCost(plan)
    decreases |plan'|
  {
    if |plan'| > |plan| {
      var init := plan'[..|plan'| - 1];
      assert init[..|plan|] == plan;
      PlanCostGrew(plan, init);
    } else {
      assert plan' == plan'[..|plan|];
    }
  }

  /** A new, empty entry for a known planet without one keeps the plan valid. */
  lemma AddEntryValid(st: State, plan0: seq<RecommendedPlanet>, plan: seq<RecommendedPlanet>, p: PlanetData, e: RecommendedPlanet)
    requires PlanValid(st, plan) && GrewBy(plan0, plan) && p in st.planets
    requires forall i :: 0 <= i < |plan| ==> plan[i].planetId != p.planetId
    requires e == NewEntry(p, e.siteId)
    ensures PlanValid(st, plan + [e]) && GrewBy(plan0, plan + [e])
  {
    var j :| 0 <= j < |st.planets| && st.planets[j] == p;
    assert PlanetValid(st, e);
    assert (plan + [e])[..|plan0|] == plan[..|plan0|];
  }

  /**
   * Step 2: walk the shuffled planets; each suitable one gets an (empty)
   * entry if it has none, and the first with room is chosen.
   */
  method FindNew(st: State, env: Env, plan: seq<RecommendedPlanet>, category: Option<string>, b: string, area: real,
                 order: seq<PlanetData>, uuids: nat)
    returns (plan': seq<RecommendedPlanet>, idx: Option<nat>, fit: int, uuids': nat)
    requires PlanValid(st, plan)
    requires forall i :: 0 <= i < |order| ==> order[i] in st.planets
    ensures Pick(plan', idx, fit, uuids') == NewFrom(st, env, plan, category, b, area, order, 0, uuids)
    ensures PlanValid(st, plan') && GrewBy(plan, plan')
  {
    plan' := plan;
    uuids' := uuids;
    var i := 0;
    while i < |order|
      invariant 0 <= i <= |order|
      invariant PlanValid(st, plan') && GrewBy(plan, plan')
      invariant NewFrom(st, env, plan, category, b, area, order, 0, uuids) == NewFrom(st, env, plan', category, b, area, order, i, uuids')
    {
      var found;
      plan', found, fit, uuids' := VisitPlanet(st, env, plan, plan', category, b, area, order, i, uuids');
      if found.Some? {
        return plan', found, fit, uuids';
      }
      i := i + 1;
    }
    return plan', None, 0, uuids';
  }

  /** One pass of step 2's loop: the i-th shuffled planet is skipped, given an entry, or chosen. */
  method VisitPlanet(st: State, env: Env, plan0: seq<RecommendedPlanet>, plan: seq<RecommendedPlanet>, category: Option<string>,
                     b: string, area: real, order: seq<PlanetData>, i: nat, uuids: nat)
    returns (plan': seq<RecommendedPlanet>, found: Option<nat>, fit: int, uuids': nat)
    requires PlanValid(st, plan) && GrewBy(plan0, plan)
    requires i < |order| && order[i] in st.planets
    ensures PlanValid(st, plan') && GrewBy(plan0, plan')
    ensures found.Some? ==> NewFrom(st, env, plan, category, b, area, order, i, uuids) == Pick(plan', found, fit, uuids')
    ensures found.None? ==> NewFrom(st, env, plan, category, b, area, order, i, uuids) == NewFrom(st, env, plan', category, b, area, order, i + 1, uuids')
  {
    plan', found, fit, uuids' := plan, None, 0, uuids;
    var p := order[i];
    var ok := CheckPlacementSuitable(st, p, category, b, env.now);
    if ok {
      var k := LookupPlanet(plan, p.planetId);
      if k.None? {
        var e := NewEntry(p, SiteTag(env, uuids));
        AddEntryValid(st, plan0, plan, p, e);
        plan' := plan + [e];
        uuids' := uuids + 1;
        k := Some(|plan|);
      }
      var f := Fit(UsedArea(st, plan'[k.value].buildings), area);
      if f > 0 {
        found, fit := k, f;
      }
    }
  }

  /** The requirement loop of one placement step. */
  method AccumulateWorkforce(wf: seq<(string, real)>, needs: seq<WorkforceNeed>, units: int) returns (wf': seq<(string, real)>)
    ensures wf' == AddNeeds(wf, needs, units)
  {
    wf' := wf;
    var i := 0;
    while i < |needs|
      invariant 0 <= i <= |needs|
      invariant wf' == AddNeeds(wf, needs[..i], units)
    {
      assert needs[..i + 1][..i] == needs[..i];
      wf' := AddDemand(wf', needs[i].workforceType, NeedAmount(needs[i], units));
      i := i + 1;
    }
    assert needs[..|needs|] == needs;
  }

  /**
   * Steps 1 and 2 of one placement step: a recommended planet of the same
   * expertise with room, else the first suitable shuffled planet with room.
   */
  method ChoosePlanet(st: State, env: Env, plan: seq<RecommendedPlanet>, shuffles: nat, uuids: nat, b: string)
    returns (plan': seq<RecommendedPlanet>, idx: Option<nat>, fit: int, shuffles': nat, uuids': nat)
    requires b in st.buildings && PlanValid(st, plan)
    ensures Choice(Pick(plan', idx, fit, uuids'), shuffles') == Choose(st, env, plan, shuffles, uuids, b)
    ensures PlanValid(st, plan') && GrewBy(plan, plan')
  {
    var area := st.buildings[b].area;
    var category := BuildingCategory(st.buildings, b);
    plan', idx, fit, shuffles', uuids' := plan, None, 0, shuffles, uuids;
    if category.Some? {
      idx, fit := FindExisting(st, plan, category.value, area);
    }
    if idx.None? {
      var order := Shuffled(st.planets, env.shuffle(shuffles));
      shuffles' := shuffles + 1;
      plan', idx, fit, uuids' := FindNew(st, env, plan, category, b, area, order, uuids);
    }
  }

  /**
   * The `while remaining_amount_to_place > 0` loop for one chain building.
   * Every step places min(remaining, fit) > 0 units, so the loop ends, and
   * every planet stays within its area; `left` is what stays unplaced.
   */
  method PlaceTemplate(st: State, env: Env, plan: seq<RecommendedPlanet>, overall: real, shuffles: nat, uuids: nat,
                       template: RecommendedBuilding, sets: int)
    returns (plan': seq<RecommendedPlanet>, overall': real, shuffles': nat, uuids': nat, ghost left: nat)
    requires template.ticker in st.buildings
    requires PlanValid(st, plan) && overall == PlanCost(plan)
    ensures Placing(plan', shuffles', uuids', left) == Place(st, env, plan, shuffles, uuids, template, template.amount * sets)
    ensures PlanValid(st, plan') && overall' == PlanCost(plan')
  {
    ghost var goal := Place(st, env, plan, shuffles, uuids, template, template.amount * sets);
    var remaining := template.amount * sets;
    plan', overall', shuffles', uuids', left := plan, overall, shuffles, uuids, 0;
    while remaining > 0
      invariant PlanValid(st, plan') && overall' == PlanCost(plan')
      invariant goal == Place(st, env, plan', shuffles', uuids', template, remaining)
      decreases remaining
    {
      var stop;
      plan', overall', shuffles', uuids', remaining, stop := PlaceOnce(st, env, plan', overall', shuffles', uuids', template, remaining);
      if stop {
        left := remaining;
        return;
      }
    }
  }

  /** One pass of the placement loop: choose a planet and place what fits there, or stop when there is none. */
  method PlaceOnce(st: State, env: Env, plan: seq<RecommendedPlanet>, overall: real, shuffles: nat, uuids: nat,
                   template: RecommendedBuilding, remaining: int)
    returns (plan': seq<RecommendedPlanet>, overall': real, shuffles': nat, uuids': nat, remaining': nat, stop: bool)
    requires template.ticker in st.buildings && remaining > 0
    requires PlanValid(st, plan) && overall == PlanCost(plan)
    ensures PlanValid(st, plan') && overall' == PlanCost(plan')
    ensures stop ==> remaining' == remaining
                     && Place(st, env, plan, shuffles, uuids, template, remaining) == Placing(plan', shuffles', uuids', remaining')
    ensures !stop ==> remaining' < remaining
                      && Place(st, env, plan, shuffles, uuids, template, remaining) == Place(st, env, plan', shuffles', uuids', template, remaining')
  {
    var idx, fit;
    plan', idx, fit, shuffles', uuids' := ChoosePlanet(st, env, plan, shuffles, uuids, template.ticker);
    PlanCostGrew(plan, plan');
    PlaceByChoice(st, env, plan, shuffles, uuids, template, remaining, Choice(Pick(plan', idx, fit, uuids'), shuffles'));
    if idx.None? {
      return plan', overall, shuffles', uuids', remaining, true;
    }
    // fit > 0 and remaining > 0, so at least one unit is placed: the
    // source's branch for placing zero units is never taken.
    var units := if remaining < fit then remaining else fit;
    plan', overall' := PlaceStep(st, plan', overall, idx.value, template, units);
    remaining', stop := remaining - units, false;
  }

  lemma PlaceStepValid(st: State, plan: seq<RecommendedPlanet>, k: nat, template: RecommendedBuilding, units: int)
    requires template.ticker in st.buildings && PlanValid(st, plan)
    requires k < |plan| && 0 < units <= Fit(UsedArea(st, plan[k].buildings), st.buildings[template.ticker].area)
    ensures PlanValid(st, plan[k := PlaceUnits(st, plan[k], template, units)])
    ensures PlanCost(plan[k := PlaceUnits(st, plan[k], template, units)]) == PlanCost(plan) + BatchCost(template, units)
  {
    var placed := PlaceUnits(st, plan[k], template, units);
    PlaceUnitsValid(st, plan[k], template, units);
    PlanCostUpdate(plan, k, placed);
    PlanValidUpdate(st, plan, k, placed);
  }

  /** Records `units` of the template on the chosen planet and adds their cost. */
  method PlaceStep(st: State, plan: seq<RecommendedPlanet>, overall: real, k: nat, template: RecommendedBuilding, units: int)
    returns (plan': seq<RecommendedPlanet>, overall': real)
    requires template.ticker in st.buildings && PlanValid(st, plan) && overall == PlanCost(plan)
    requires k < |plan| && 0 < units <= Fit(UsedArea(st, plan[k].buildings), st.buildings[template.ticker].area)
    ensures plan' == plan[k := PlaceUnits(st, plan[k], template, units)]
    ensures PlanValid(st, plan') && overall' == PlanCost(plan')
  {
    var wf := AccumulateWorkforce(plan[k].workforce, WorkforceNeeds(st, template.ticker), units);
    var placed := PlaceUnits(st, plan[k], template, units).(workforce := wf);
    PlaceStepValid(st, plan, k, template, units);
    plan' := plan[k := placed];
    overall' := overall + BatchCost(template, units);
  }

  /** The loop over the chain buildings. Every chain building must be defined (the source reads its area). */
  method PlaceChain(st: State, env: Env, chain: seq<RecommendedBuilding>, sets: int)
    returns (plan: seq<RecommendedPlanet>, overall: real)
    requires forall i :: 0 <= i < |chain| ==> chain[i].ticker in st.buildings
    ensures plan == PlaceAll(st, env, chain, sets).plan
    ensures PlanValid(st, plan) && overall == PlanCost(plan)
  {
    plan, overall := [], 0.0;
    var shuffles, uuids := 0, 0;
    ghost var left: nat := 0;
    var i := 0;
    while i < |chain|
      invariant 0 <= i <= |chain|
      invariant PlanValid(st, plan) && overall == PlanCost(plan)
      invariant PlacePrefix(st, env, chain, sets, i) == Placing(plan, shuffles, uuids, left)
    {
      plan, overall, shuffles, uuids, left := PlaceChainStep(st, env, chain, sets, i, plan, overall, shuffles, uuids, left);
      i := i + 1;
    }
  }

  /** One pass of the chain loop: the i-th chain building placed `amount * sets` times. */
  method PlaceChainStep(st: State, env: Env, chain: seq<RecommendedBuilding>, sets: int, i: nat,
                        plan: seq<RecommendedPlanet>, overall: real, shuffles: nat, uuids: nat, ghost left: nat)
    returns (plan': seq<RecommendedPlanet>, overall': real, shuffles': nat, uuids': nat, ghost left': nat)
    requires i < |chain| && chain[i].ticker in st.buildings
    requires PlanValid(st, plan) && overall == PlanCost(plan)
    requires PlacePrefix(st, env, chain, sets, i) == Placing(plan, shuffles, uuids, left)
    ensures PlanValid(st, plan') && overall' == PlanCost(plan')
    ensures PlacePrefix(st, env, chain, sets, i + 1) == Placing(plan', shuffles', uuids', left')
  {
    ghost var l;
    plan', overall', shuffles', uuids', l := PlaceTemplate(st, env, plan, overall, shuffles, uuids, chain[i], sets);
    left' := left + l;
  }

  // ---- what placement promises ----

  /** Step 1 finds nothing only when no recommended planet from i on has matching expertise and room. */
  lemma {:induction false} FirstExistingNone(st: State, plan: seq<RecommendedPlanet>, category: string, area: real, i: nat, j: nat)
    requires FirstExisting(st, plan, category, area, i).None? && i <= j < |plan|
    ensures !ExistingFits(st, plan[j], category, area)
    decreases |plan| - i
  {
    if i < j {
      FirstExistingNone(st, plan, category, area, i + 1, j);
    }
  }

  /** Step 1's planet is the first one of matching expertise with room. */
  lemma {:induction false} FirstExistingLeast(st: State, plan: seq<RecommendedPlanet>, category: string, area: real, i: nat, j: nat)
    requires FirstExisting(st, plan, category, area, i).Some? && i <= j < FirstExisting(st, plan, category, area, i).value
    ensures !ExistingFits(st, plan[j], category, area)
    decreases |plan| - i
  {
    if i < j {
      FirstExistingLeast(st, plan, category, area, i + 1, j);
    }
  }

  lemma LookupAppend(plan: seq<RecommendedPlanet>, e: RecommendedPlanet, id: string)
    requires e.planetId != id
    ensures LookupPlanet(plan + [e], id) == LookupPlanet(plan, id)
  {
    assert (plan + [e])[..|plan|] == plan;
  }

  /** An entry for another planet leaves a full entry full. */
  lemma NoRoomAppend(st: State, plan: seq<RecommendedPlanet>, e: RecommendedPlanet, id: string, area: real)
    requires NoRoom(st, plan, id, area) && e.planetId != id
    ensures NoRoom(st, plan + [e], id, area)
  {
    LookupAppend(plan, e, id);
    assert (plan + [e])[LookupPlanet(plan, id).value] == plan[LookupPlanet(plan, id).value];
  }

  lemma GrewByTrans(a: seq<RecommendedPlanet>, b: seq<RecommendedPlanet>, c: seq<RecommendedPlanet>)
    requires GrewBy(a, b) && GrewBy(b, c)
    ensures GrewBy(a, c)
  {
    assert c[..|a|] == c[..|b|][..|a|];
  }

  /** Step 2 only adds empty entries. */
  lemma {:induction false} NewFromGrows(st: State, env: Env, plan: seq<RecommendedPlanet>, category: Option<string>, b: string, area: real,
                                        order: seq<PlanetData>, i: nat, uuids: nat)
    ensures GrewBy(plan, NewFrom(st, env, plan, category, b, area, order, i, uuids).plan)
    decreases |order| - i
  {
    if i < |order| {
      if !PlacementSuitable(st, order[i], category, b, env.now) {
        NewFromGrows(st, env, plan, category, b, area, order, i + 1, uuids);
      } else {
        var p := order[i];
        var k := LookupPlanet(plan, p.planetId);
        var plan1 := if k.None? then plan + [NewEntry(p, SiteTag(env, uuids))] else plan;
        var uuids1 := if k.None? then uuids + 1 else uuids;
        assert plan1[..|plan|] == plan;
        assert GrewBy(plan, plan1);
        NewFromGrows(st, env, plan1, category, b, area, order, i + 1, uuids1);
        GrewByTrans(plan, plan1, NewFrom(st, env, plan1, category, b, area, order, i + 1, uuids1).plan);
      }
    }
  }

  /** Step 2 never gives room to an entry that had none. */
  lemma {:induction false} NewFromKeepsNoRoom(st: State, env: Env, plan: seq<RecommendedPlanet>, category: Option<string>, b: string, area: real,
                                              order: seq<PlanetData>, i: nat, uuids: nat, id: string)
    requires NoRoom(st, plan, id, area)
    ensures NoRoom(st, NewFrom(st, env, plan, category, b, area, order, i, uuids).plan, id, area)
    decreases |order| - i
  {
    if i < |order| {
      if !PlacementSuitable(st, order[i], category, b, env.now) {
        NewFromKeepsNoRoom(st, env, plan, category, b, area, order, i + 1, uuids, id);
      } else {
        var p := order[i];
        var k := LookupPlanet(plan, p.planetId);
        var plan1 := if k.None? then plan + [NewEntry(p, SiteTag(env, uuids))] else plan;
        var uuids1 := if k.None? then uuids + 1 else uuids;
        if k.None? {
          NoRoomAppend(st, plan, NewEntry(p, SiteTag(env, uuids)), id, area);
        }
        NewFromKeepsNoRoom(st, env, plan1, category, b, area, order, i + 1, uuids1, id);
      }
    }
  }

  /** After step 2 visits a suitable planet without choosing it, its entry exists and is full. */
  lemma NewFromVisited(st: State, env: Env, plan: seq<RecommendedPlanet>, category: Option<string>, b: string, area: real,
                       order: seq<PlanetData>, i: nat, uuids: nat)
    requires i < |order| && PlacementSuitable(st, order[i], category, b, env.now)
    ensures var p := order[i];
      var k := LookupPlanet(plan, p.planetId);
      var plan1 := if k.None? then plan + [NewEntry(p, SiteTag(env, uuids))] else plan;
      var k1 := if k.None? then |plan| else k.value;
      LookupPlanet(plan1, p.planetId) == Some(k1) && plan1[k1].planetId == p.planetId
  {
    var p := order[i];
    if LookupPlanet(plan, p.planetId).None? {
      assert (plan + [NewEntry(p, SiteTag(env, uuids))])[|plan|].planetId == p.planetId;
    }
  }

  /** Step 2 finds nothing only when every suitable planet from i on has an entry without room. */
  lemma {:induction false} NewFromNone(st: State, env: Env, plan: seq<RecommendedPlanet>, category: Option<string>, b: string, area: real,
                                       order: seq<PlanetData>, i: nat, uuids: nat, j: nat)
    requires NewFrom(st, env, plan, category, b, area, order, i, uuids).idx.None?
    requires i <= j < |order| && PlacementSuitable(st, order[j], category, b, env.now)
    ensures NoRoom(st, NewFrom(st, env, plan, category, b, area, order, i, uuids).plan, order[j].planetId, area)
    decreases |order| - i
  {
    if !PlacementSuitable(st, order[i], category, b, env.now) {
      NewFromNone(st, env, plan, category, b, area, order, i + 1, uuids, j);
    } else {
      var p := order[i];
      var k := LookupPlanet(plan, p.planetId);
      var plan1 := if k.None? then plan + [NewEntry(p, SiteTag(env, uuids))] else plan;
      var uuids1 := if k.None? then uuids + 1 else uuids;
      if i < j {
        NewFromNone(st, env, plan1, category, b, area, order, i + 1, uuids1, j);
      } else {
        NewFromVisited(st, env, plan, category, b, area, order, i, uuids);
        NewFromKeepsNoRoom(st, env, plan1, category, b, area, order, i + 1, uuids1, p.planetId);
      }
    }
  }

  /** Step 2's entry belongs to the j-th shuffled planet: suitable, and every suitable planet before it full. */
  predicate FirstWithRoom(st: State, env: Env, plan: seq<RecommendedPlanet>, category: Option<string>, b: string, area: real,
                          order: seq<PlanetData>, i: nat, j: nat, k: nat)
  {
    i <= j < |order| && k < |plan| && PlacementSuitable(st, order[j], category, b, env.now)
    && plan[k].planetId == order[j].planetId
    && forall l :: i <= l < j && PlacementSuitable(st, order[l], category, b, env.now) ==> NoRoom(st, plan, order[l].planetId, area)
  }

  /** Step 2 chooses the first suitable shuffled planet whose entry has room. */
  lemma {:induction false} NewFromFirst(st: State, env: Env, plan: seq<RecommendedPlanet>, category: Option<string>, b: string, area: real,
                                        order: seq<PlanetData>, i: nat, uuids: nat)
    requires NewFrom(st, env, plan, category, b, area, order, i, uuids).idx.Some?
    ensures var r := NewFrom(st, env, plan, category, b, area, order, i, uuids);
      exists j :: FirstWithRoom(st, env, r.plan, category, b, area, order, i, j, r.idx.value)
    decreases |order| - i
  {
    var r := NewFrom(st, env, plan, category, b, area, order, i, uuids);
    if !PlacementSuitable(st, order[i], category, b, env.now) {
      NewFromFirst(st, env, plan, category, b, area, order, i + 1, uuids);
      var j :| FirstWithRoom(st, env, r.plan, category, b, area, order, i + 1, j, r.idx.value);
      assert FirstWithRoom(st, env, r.plan, category, b, area, order, i, j, r.idx.value);
    } else {
      var p := order[i];
      var k := LookupPlanet(plan, p.planetId);
      var plan1 := if k.None? then plan + [NewEntry(p, SiteTag(env, uuids))] else plan;
      var k1 := if k.None? then |plan| else k.value;
      var uuids1 := if k.None? then uuids + 1 else uuids;
      NewFromVisited(st, env, plan, category, b, area, order, i, uuids);
      if Fit(UsedArea(st, plan1[k1].buildings), area) > 0 {
        assert FirstWithRoom(st, env, r.plan, category, b, area, order, i, i, r.idx.value);
      } else {
        NewFromFirst(st, env, plan1, category, b, area, order, i + 1, uuids1);
        var j :| FirstWithRoom(st, env, r.plan, category, b, area, order, i + 1, j, r.idx.value);
        NewFromKeepsNoRoom(st, env, plan1, category, b, area, order, i + 1, uuids1, p.planetId);
        assert FirstWithRoom(st, env, r.plan, category, b, area, order, i, j, r.idx.value);
      }
    }
  }

  /**
   * No planet for building b: no recommended planet of its expertise has
   * room, and every planet of the s-th shuffle that suits it has an entry
   * without room.
   */
  predicate Stuck(st: State, env: Env, plan: seq<RecommendedPlanet>, s: nat, b: string)
  {
    var area := AreaOf(st, b);
    var category := BuildingCategory(st.buildings, b);
    var order := Shuffled(st.planets, env.shuffle(s));
    (category.Some? ==> forall j :: 0 <= j < |plan| ==> !ExistingFits(st, plan[j], category.value, area))
    && forall j :: 0 <= j < |order| && PlacementSuitable(st, order[j], category, b, env.now) ==> NoRoom(st, plan, order[j].planetId, area)
  }

  /** The first m entries of a permutation are m distinct values. */
  lemma {:induction false} PrefixImageSize(perm: seq<nat>, n: nat, m: nat)
    requires IsPermutation(perm, n) && m <= n
    ensures |set i | 0 <= i < m :: perm[i]| == m
  {
    if m > 0 {
      PrefixImageSize(perm, n, m - 1);
      var a := set i | 0 <= i < m - 1 :: perm[i];
      assert (set i | 0 <= i < m :: perm[i]) == a + {perm[m - 1]};
      assert perm[m - 1] !in a;
    }
  }

  lemma SubsetSize<T>(a: set<T>, b: set<T>)
    requires a <= b
    ensures |a| <= |b|
  {
    assert b == a + (b - a);
  }

  /** A permutation of n positions names every one of them. */
  lemma PermutationOnto(perm: seq<nat>, n: nat, x: nat)
    requires IsPermutation(perm, n) && x < n
    ensures exists i :: 0 <= i < n && perm[i] == x
  {
    var ident: seq<nat> := seq(n, i requires 0 <= i < n => i);
    var image := set i | 0 <= i < n :: perm[i];
    var range := set i | 0 <= i < n :: ident[i];
    PrefixImageSize(perm, n, n);
    PrefixImageSize(ident, n, n);
    assert ident[x] == x;
    if x !in image {
      forall y | y in image ensures y in range - {x} {
        var i :| 0 <= i < n && perm[i] == y;
        assert ident[y] == y;
      }
      SubsetSize(image, range - {x});
    }
  }

  /** `random.shuffle` loses no planet. */
  lemma ShuffledCovers(ps: seq<PlanetData>, perm: seq<nat>, p: PlanetData)
    requires p in ps
    ensures p in Shuffled(ps, perm)
  {
    if IsPermutation(perm, |ps|) {
      var x :| 0 <= x < |ps| && ps[x] == p;
      PermutationOnto(perm, |ps|, x);
      var i :| 0 <= i < |ps| && perm[i] == x;
      assert Shuffled(ps, perm)[i] == p;
    }
  }

  /** A stuck building has no room on any planet that suits it. */
  lemma StuckEverywhere(st: State, env: Env, plan: seq<RecommendedPlanet>, s: nat, b: string, p: PlanetData)
    requires Stuck(st, env, plan, s, b) && p in st.planets
    requires PlacementSuitable(st, p, BuildingCategory(st.buildings, b), b, env.now)
    ensures NoRoom(st, plan, p.planetId, AreaOf(st, b))
  {
    var order := Shuffled(st.planets, env.shuffle(s));
    ShuffledCovers(st.planets, env.shuffle(s), p);
    var j :| 0 <= j < |order| && order[j] == p;
  }

  /** A placement step only adds empty entries. */
  lemma ChooseGrows(st: State, env: Env, plan: seq<RecommendedPlanet>, shuffles: nat, uuids: nat, b: string)
    ensures GrewBy(plan, Choose(st, env, plan, shuffles, uuids, b).pick.plan)
  {
    var category := BuildingCategory(st.buildings, b);
    var order := Shuffled(st.planets, env.shuffle(shuffles));
    NewFromGrows(st, env, plan, category, b, AreaOf(st, b), order, 0, uuids);
    assert plan[..|plan|] == plan;
  }

  /** Step 1 takes precedence: when a recommended planet of the expertise has room, the first such is chosen and nothing is shuffled. */
  lemma ChoosePrefersExisting(st: State, env: Env, plan: seq<RecommendedPlanet>, shuffles: nat, uuids: nat, b: string, j: nat)
    requires BuildingCategory(st.buildings, b).Some?
    requires j < |plan| && ExistingFits(st, plan[j], BuildingCategory(st.buildings, b).value, AreaOf(st, b))
    ensures var c := Choose(st, env, plan, shuffles, uuids, b);
      c.pick.plan == plan && c.shuffles == shuffles && c.pick.uuids == uuids
      && c.pick.idx.Some? && c.pick.idx.value <= j
      && ExistingFits(st, plan[c.pick.idx.value], BuildingCategory(st.buildings, b).value, AreaOf(st, b))
      && forall l :: 0 <= l < c.pick.idx.value ==> !ExistingFits(st, plan[l], BuildingCategory(st.buildings, b).value, AreaOf(st, b))
  {
    var category := BuildingCategory(st.buildings, b).value;
    var e := FirstExisting(st, plan, category, AreaOf(st, b), 0);
    if e.None? {
      FirstExistingNone(st, plan, category, AreaOf(st, b), 0, j);
    } else {
      if j < e.value {
        FirstExistingLeast(st, plan, category, AreaOf(st, b), 0, j);
      }
      forall l | 0 <= l < e.value ensures !ExistingFits(st, plan[l], category, AreaOf(st, b)) {
        FirstExistingLeast(st, plan, category, AreaOf(st, b), 0, l);
      }
    }
  }

  /** Without step 1's planet, the step draws a shuffle and takes its first suitable planet with room. */
  lemma ChooseFirstFit(st: State, env: Env, plan: seq<RecommendedPlanet>, shuffles: nat, uuids: nat, b: string)
    requires BuildingCategory(st.buildings, b).Some? ==>
               forall j :: 0 <= j < |plan| ==> !ExistingFits(st, plan[j], BuildingCategory(st.buildings, b).value, AreaOf(st, b))
    requires Choose(st, env, plan, shuffles, uuids, b).pick.idx.Some?
    ensures var c := Choose(st, env, plan, shuffles, uuids, b);
      c.shuffles == shuffles + 1
      && exists j :: FirstWithRoom(st, env, c.pick.plan, BuildingCategory(st.buildings, b), b, AreaOf(st, b),
                                   Shuffled(st.planets, env.shuffle(shuffles)), 0, j, c.pick.idx.value)
  {
    var category := BuildingCategory(st.buildings, b);
    NewFromFirst(st, env, plan, category, b, AreaOf(st, b), Shuffled(st.planets, env.shuffle(shuffles)), 0, uuids);
  }

  /** A step finds no planet only when the building is stuck after a fresh shuffle. */
  lemma ChooseNone(st: State, env: Env, plan: seq<RecommendedPlanet>, shuffles: nat, uuids: nat, b: string)
    requires Choose(st, env, plan, shuffles, uuids, b).pick.idx.None?
    ensures Choose(st, env, plan, shuffles, uuids, b).shuffles == shuffles + 1
    ensures Stuck(st, env, Choose(st, env, plan, shuffles, uuids, b).pick.plan, shuffles, b)
  {
    var c := Choose(st, env, plan, shuffles, uuids, b);
    var area := AreaOf(st, b);
    var category := BuildingCategory(st.buildings, b);
    var order := Shuffled(st.planets, env.shuffle(shuffles));
    ChooseGrows(st, env, plan, shuffles, uuids, b);
    if category.Some? {
      forall j | 0 <= j < |c.pick.plan| ensures !ExistingFits(st, c.pick.plan[j], category.value, area) {
        if j < |plan| {
          FirstExistingNone(st, plan, category.value, area, 0, j);
          assert c.pick.plan[j] == c.pick.plan[..|plan|][j];
        }
      }
    }
    forall j | 0 <= j < |order| && PlacementSuitable(st, order[j], category, b, env.now)
      ensures NoRoom(st, c.pick.plan, order[j].planetId, area)
    {
      NewFromNone(st, env, plan, category, b, area, order, 0, uuids, j);
    }
  }

  /** The units of the listed buildings. */
  function Units(bs: seq<RecommendedBuilding>): int
  {
    if bs == [] then 0 else Units(bs[..|bs| - 1]) + bs[|bs| - 1].amount
  }

  /** The units placed over the whole plan. */
  function TotalUnits(plan: seq<RecommendedPlanet>): int
  {
    if plan == [] then 0 else TotalUnits(plan[..|plan| - 1]) + Units(plan[|plan| - 1].buildings)
  }

  lemma {:induction false} TotalUnitsUpdate(plan: seq<RecommendedPlanet>, k: nat, p: RecommendedPlanet)
    requires k < |plan|
    ensures TotalUnits(plan[k := p]) == TotalUnits(plan) - Units(plan[k].buildings) + Units(p.buildings)
  {
    var n := |plan| - 1;
    assert plan[k := p][..n] == if k == n then plan[..n] else plan[..n][k := p];
    if k < n {
      TotalUnitsUpdate(plan[..n], k, p);
    }
  }

  lemma {:induction false} TotalUnitsGrew(plan: seq<RecommendedPlanet>, plan': seq<RecommendedPlanet>)
    requires GrewBy(plan, plan')
    ensures TotalUnits(plan') == TotalUnits(plan)
    decreases |plan'|
  {
    if |plan'| > |plan| {
      var init := plan'[..|plan'| - 1];
      assert init[..|plan|] == plan;
      assert Units(plan'[|plan'| - 1].buildings) == 0;
      TotalUnitsGrew(plan, init);
    } else {
      assert plan' == plan'[..|plan|];
    }
  }

  /** A placement step adds exactly its units to the plan. */
  lemma PlaceUnitsAdds(st: State, plan: seq<RecommendedPlanet>, k: nat, template: RecommendedBuilding, units: int)
    requires k < |plan|
    ensures TotalUnits(plan[k := PlaceUnits(st, plan[k], template, units)]) == TotalUnits(plan) + units
  {
    var q := PlaceUnits(st, plan[k], template, units);
    assert q.buildings[..|q.buildings| - 1] == plan[k].buildings;
    TotalUnitsUpdate(plan, k, q);
  }

  /** The units a chain building asks for: `amount * sets`, none when that is not positive. */
  function Wanted(template: RecommendedBuilding, sets: int): nat
  {
    if template.amount * sets > 0 then template.amount * sets else 0
  }

  /** The loop places every remaining unit except the ones it gives up on. */
  lemma {:induction false} PlaceTotal(st: State, env: Env, plan: seq<RecommendedPlanet>, shuffles: nat, uuids: nat,
                                      template: RecommendedBuilding, remaining: int)
    ensures var r := Place(st, env, plan, shuffles, uuids, template, remaining);
      TotalUnits(r.plan) + r.left == TotalUnits(plan) + (if remaining > 0 then remaining else 0)
      && r.left <= (if remaining > 0 then remaining else 0)
    decreases remaining
  {
    if remaining > 0 {
      var c := Choose(st, env, plan, shuffles, uuids, template.ticker);
      ChooseGrows(st, env, plan, shuffles, uuids, template.ticker);
      TotalUnitsGrew(plan, c.pick.plan);
      if c.pick.idx.Some? {
        var k := c.pick.idx.value;
        var units := if remaining < c.pick.fit then remaining else c.pick.fit;
        PlaceUnitsAdds(st, c.pick.plan, k, template, units);
        PlaceTotal(st, env, c.pick.plan[k := PlaceUnits(st, c.pick.plan[k], template, units)], c.shuffles, c.pick.uuids,
                   template, remaining - units);
      }
    }
  }

  /** Units are left unplaced only when the last step found no planet: the building is stuck after the last shuffle. */
  lemma {:induction false} PlaceStuck(st: State, env: Env, plan: seq<RecommendedPlanet>, shuffles: nat, uuids: nat,
                                      template: RecommendedBuilding, remaining: int, r: Placing)
    requires r == Place(st, env, plan, shuffles, uuids, template, remaining) && r.left > 0
    ensures r.shuffles > shuffles && Stuck(st, env, r.plan, r.shuffles - 1, template.ticker)
    decreases remaining
  {
    var c := Choose(st, env, plan, shuffles, uuids, template.ticker);
    PlaceByChoice(st, env, plan, shuffles, uuids, template, remaining, c);
    if c.pick.idx.None? {
      ChooseNone(st, env, plan, shuffles, uuids, template.ticker);
    } else {
      var k := c.pick.idx.value;
      var units := StepUnits(c, remaining);
      assert c.shuffles >= shuffles;
      PlaceStuck(st, env, c.pick.plan[k := PlaceUnits(st, c.pick.plan[k], template, units)], c.shuffles, c.pick.uuids,
                 template, remaining - units, r);
    }
  }

  /** The units the first n chain buildings ask for. */
  function WantedPrefix(chain: seq<RecommendedBuilding>, sets: int, n: nat): nat
    requires n <= |chain|
  {
    if n == 0 then 0 else WantedPrefix(chain, sets, n - 1) + Wanted(chain[n - 1], sets)
  }

  lemma {:induction false} PlacePrefixTotal(st: State, env: Env, chain: seq<RecommendedBuilding>, sets: int, n: nat)
    requires n <= |chain|
    ensures TotalUnits(PlacePrefix(st, env, chain, sets, n).plan) + PlacePrefix(st, env, chain, sets, n).left == WantedPrefix(chain, sets, n)
  {
    if n > 0 {
      var acc := PlacePrefix(st, env, chain, sets, n - 1);
      PlacePrefixTotal(st, env, chain, sets, n - 1);
      PlaceTotal(st, env, acc.plan, acc.shuffles, acc.uuids, chain[n - 1], chain[n - 1].amount * sets);
    }
  }

  /**
   * The whole placement puts `amount * sets` units of every chain building
   * on some planet, less the units it gives up on; with none given up, all
   * are placed.
   */
  lemma PlaceAllTotal(st: State, env: Env, chain: seq<RecommendedBuilding>, sets: int)
    ensures TotalUnits(PlaceAll(st, env, chain, sets).plan) + PlaceAll(st, env, chain, sets).left == WantedPrefix(chain, sets, |chain|)
    ensures PlaceAll(st, env, chain, sets).left == 0 ==> TotalUnits(PlaceAll(st, env, chain, sets).plan) == WantedPrefix(chain, sets, |chain|)
  {
    PlacePrefixTotal(st, env, chain, sets, |chain|);
  }
}
