/**
 * The housing and permit passes of `run_simulation`: every planet's
 * workforce demand is met with the most efficient housing building of
 * `HOUSING_BUILDING`, then every site is charged the area permits its
 * buildings need.
 */
module Housing {
  import opened Wrappers
  import opened PlannerModel
  import opened CostResolver
  import opened Placement

  /** One `HousingWorkforce` entry: a workforce type and the number of workers housed. */
  datatype Capacity = Capacity(workforceType: string, capacity: real)

  /** `HOUSING_BUILDING`, in its declaration order. */
  const HousingTable: seq<(string, seq<Capacity>)> := [
    ("HB1", [Capacity("PIONEER", 100.0)]),
    ("HB2", [Capacity("SETTLER", 100.0)]),
    ("HB3", [Capacity("TECHNICIAN", 100.0)]),
    ("HB4", [Capacity("ENGINEER", 100.0)]),
    ("HB5", [Capacity("SCIENTIST", 100.0)]),
    ("HBB", [Capacity("PIONEER", 75.0), Capacity("SETTLER", 75.0)]),
    ("HBC", [Capacity("SETTLER", 75.0), Capacity("TECHNICIAN", 75.0)]),
    ("HBM", [Capacity("TECHNICIAN", 75.0), Capacity("ENGINEER", 75.0)]),
    ("HBL", [Capacity("ENGINEER", 75.0), Capacity("SCIENTIST", 75.0)])
  ]

  /** Workers of one type a housing building holds: its positive entries for that type. */
  function TypeCapacity(caps: seq<Capacity>, wfType: string): real
  {
    if caps == [] then 0.0
    else
      var c := caps[|caps| - 1];
      TypeCapacity(caps[..|caps| - 1], wfType) + (if c.workforceType == wfType && c.capacity > 0.0 then c.capacity else 0.0)
  }

  /** A housing building is a candidate for a type only if it houses someone of that type. */
  lemma {:induction false} TypeCapacityPositive(caps: seq<Capacity>, wfType: string)
    ensures TypeCapacity(caps, wfType) >= 0.0
    ensures TypeCapacity(caps, wfType) > 0.0 <==>
            exists i :: 0 <= i < |caps| && caps[i].workforceType == wfType && caps[i].capacity > 0.0
  {
    if caps != [] {
      var n := |caps| - 1;
      TypeCapacityPositive(caps[..n], wfType);
      if TypeCapacity(caps[..n], wfType) > 0.0 {
        var i :| 0 <= i < n && caps[..n][i].workforceType == wfType && caps[..n][i].capacity > 0.0;
        assert caps[i] == caps[..n][i];
      }
      forall i | 0 <= i < n ensures caps[i] == caps[..n][i] { }
    }
  }

  /** `(static_hb_def, cost_per_unit_wf, area_per_unit_wf, current_hb_capacity_for_type)`. */
  datatype Candidate = Candidate(def: Building, costPerWorker: real, areaPerWorker: real, capacity: real)

  function MakeCandidate(st: State, ticker: string, capacity: real): Candidate
    requires ticker in st.buildings && capacity > 0.0
  {
    Candidate(st.buildings[ticker], ConstructionCost(st, ticker) / capacity, st.buildings[ticker].area / capacity, capacity)
  }

  /** The candidates for a workforce type, in table order: defined buildings housing that type. */
  function Candidates(st: State, table: seq<(string, seq<Capacity>)>, wfType: string): (cs: seq<Candidate>)
    ensures forall i :: 0 <= i < |cs| ==> cs[i].capacity > 0.0
  {
    if table == [] then []
    else
      var e := table[|table| - 1];
      var cap := TypeCapacity(e.1, wfType);
      Candidates(st, table[..|table| - 1], wfType)
        + (if e.0 in st.buildings && cap > 0.0 then [MakeCandidate(st, e.0, cap)] else [])
  }

  /** Every candidate comes from a defined table entry that houses the type, with its costs per worker. */
  lemma {:induction false} CandidatesFromTable(st: State, table: seq<(string, seq<Capacity>)>, wfType: string, c: Candidate)
    requires c in Candidates(st, table, wfType)
    ensures exists i :: (0 <= i < |table| && table[i].0 in st.buildings && c.def == st.buildings[table[i].0]
                         && c.capacity == TypeCapacity(table[i].1, wfType) > 0.0
                         && c.costPerWorker == ConstructionCost(st, table[i].0) / c.capacity
                         && c.areaPerWorker == c.def.area / c.capacity)
  {
    var n := |table| - 1;
    var e := table[n];
    if c in Candidates(st, table[..n], wfType) {
      CandidatesFromTable(st, table[..n], wfType, c);
      var i :| 0 <= i < n && table[..n][i].0 in st.buildings && c.def == st.buildings[table[..n][i].0]
        && c.capacity == TypeCapacity(table[..n][i].1, wfType) > 0.0
        && c.costPerWorker == ConstructionCost(st, table[..n][i].0) / c.capacity
        && c.areaPerWorker == c.def.area / c.capacity;
      assert table[i] == table[..n][i];
    } else {
      assert c == MakeCandidate(st, e.0, TypeCapacity(e.1, wfType));
    }
  }

  /** A defined table entry housing the type is always a candidate. */
  lemma {:induction false} TableEntryIsCandidate(st: State, table: seq<(string, seq<Capacity>)>, wfType: string, i: nat)
    requires i < |table| && table[i].0 in st.buildings && TypeCapacity(table[i].1, wfType) > 0.0
    ensures MakeCandidate(st, table[i].0, TypeCapacity(table[i].1, wfType)) in Candidates(st, table, wfType)
  {
    var n := |table| - 1;
    if i < n {
      assert table[..n][i] == table[i];
      TableEntryIsCandidate(st, table[..n], wfType, i);
    }
  }

  /** The sort key: area per worker for "less area", cost per worker for "lower cost" and any other goal. */
  function Key(c: Candidate, goal: Option<string>): real
  {
    if goal == Some("less area") then c.areaPerWorker else c.costPerWorker
  }

  /**
   * The first element after Python's stable sort by the key: a candidate
   * of least key, and the first among those.
   */
  function FirstMinimum(cs: seq<Candidate>, goal: Option<string>): (k: nat)
    requires |cs| > 0
    ensures k < |cs|
    ensures forall j :: 0 <= j < |cs| ==> Key(cs[k], goal) <= Key(cs[j], goal)
    ensures forall j :: 0 <= j < k ==> Key(cs[j], goal) > Key(cs[k], goal)
  {
    if |cs| == 1 then 0
    else
      var k := FirstMinimum(cs[..|cs| - 1], goal);
      assert forall j :: 0 <= j < |cs| - 1 ==> cs[..|cs| - 1][j] == cs[j];
      if Key(cs[|cs| - 1], goal) < Key(cs[k], goal) then |cs| - 1 else k
  }

  /**
   * `max(1, int(need / per_unit + 0.99))`: the number of housing buildings
   * for a demand, and the number of production chain sets for a gap.
   */
  function CountFor(demand: real, capacity: real): (n: int)
    requires capacity > 0.0
    ensures n >= 1
  {
    var n := ApproxCeil(demand / capacity);
    if n > 1 then n else 1
  }

  lemma MulMonotone(a: real, b: real, c: real)
    requires a < b && c > 0.0
    ensures a * c < b * c
  {
  }

  lemma ShortfallBound(n: real, x: real, c: real, d: real)
    requires x * c == d && x - 0.01 < n && c > 0.0
    ensures n * c > d - c / 100.0
  {
    MulMonotone(x - 0.01, n, c);
    assert (x - 0.01) * c == x * c - 0.01 * c;
  }

  /** At least one unit, and together the units cover the need short of at most a hundredth of one unit's share. */
  lemma CountForCovers(demand: real, capacity: real)
    requires demand > 0.0 && capacity > 0.0
    ensures CountFor(demand, capacity) >= 1
    ensures CountFor(demand, capacity) as real * capacity > demand - capacity / 100.0
    ensures (CountFor(demand, capacity) - 1) as real * capacity < demand
  {
    var x := demand / capacity;
    ApproxCeilBounds(x);
    var n := CountFor(demand, capacity);
    assert x * capacity == demand;
    ShortfallBound(n as real, x, capacity, demand);
    if n > 1 {
      assert n == ApproxCeil(x);
      MulMonotone((n - 1) as real, x, capacity);
    } else {
      assert (n - 1) as real * capacity == 0.0;
    }
  }

  /** `n` units of the capacity cover the demand, short of at most a hundredth of one unit. */
  predicate Covers(n: int, capacity: real, demand: real)
  {
    n >= 1 && n as real * capacity > demand - capacity / 100.0
  }

  /** The housing building planned from the candidates for one workforce demand. */
  function HousingFrom(st: State, p: RecommendedPlanet, cs: seq<Candidate>, demand: real, goal: Option<string>): (r: Option<RecommendedBuilding>)
    requires forall i :: 0 <= i < |cs| ==> cs[i].capacity > 0.0
    ensures r.Some? ==> r.value.planetId == Some(p.planetId) && r.value.siteId == Some(p.siteId)
  {
    if demand <= 0.0 || cs == [] then None
    else
      var c := cs[FirstMinimum(cs, goal)];
      Some(RecommendedBuilding(c.def.ticker, c.def.name, CountFor(demand, c.capacity),
                               ConstructionCost(st, c.def.ticker), Some(p.planetId), Some(p.siteId)))
  }

  /** The housing building planned for one workforce type on a planet, if any. */
  function HousingFor(st: State, p: RecommendedPlanet, wfType: string, demand: real, goal: Option<string>): Option<RecommendedBuilding>
  {
    HousingFrom(st, p, Candidates(st, HousingTable, wfType), demand, goal)
  }

  /**
   * No housing for a non-positive demand or without candidates; otherwise
   * the chosen building has the least key of all candidates and enough
   * units for the demand.
   */
  lemma HousingFromSound(st: State, p: RecommendedPlanet, cs: seq<Candidate>, demand: real, goal: Option<string>)
    requires forall i :: 0 <= i < |cs| ==> cs[i].capacity > 0.0
    ensures HousingFrom(st, p, cs, demand, goal).None? <==> demand <= 0.0 || cs == []
    ensures HousingFrom(st, p, cs, demand, goal).Some? ==>
            exists k :: (0 <= k < |cs|
              && var b := HousingFrom(st, p, cs, demand, goal).value;
                 b.ticker == cs[k].def.ticker && Covers(b.amount, cs[k].capacity, demand)
                 && b.estimatedCost == ConstructionCost(st, cs[k].def.ticker)
                 && b.planetId == Some(p.planetId) && b.siteId == Some(p.siteId)
                 && forall j :: 0 <= j < |cs| ==> Key(cs[k], goal) <= Key(cs[j], goal))
  {
    if demand > 0.0 && cs != [] {
      var k := FirstMinimum(cs, goal);
      CountForCovers(demand, cs[k].capacity);
      assert Covers(CountFor(demand, cs[k].capacity), cs[k].capacity, demand);
      var b := HousingFrom(st, p, cs, demand, goal).value;
      assert b.ticker == cs[k].def.ticker && b.amount == CountFor(demand, cs[k].capacity);
    }
  }

  /** The cost a recommended building adds to its planet: price per building times units. */
  function Outlay(b: RecommendedBuilding): real
  {
    b.estimatedCost * b.amount as real
  }

  function SumOutlay(bs: seq<RecommendedBuilding>): real
  {
    if bs == [] then 0.0 else SumOutlay(bs[..|bs| - 1]) + Outlay(bs[|bs| - 1])
  }

  /** The housing planned over a planet's workforce entries, in order. */
  function HousingAdded(st: State, p: RecommendedPlanet, wf: seq<(string, real)>, goal: Option<string>): seq<RecommendedBuilding>
  {
    if wf == [] then []
    else
      var e := wf[|wf| - 1];
      HousingAdded(st, p, wf[..|wf| - 1], goal)
        + (match HousingFor(st, p, e.0, e.1, goal) case Some(b) => [b] case None => [])
  }

  /** A planet after the housing pass. */
  function HousePlanet(st: State, p: RecommendedPlanet, goal: Option<string>): RecommendedPlanet
  {
    var added := HousingAdded(st, p, p.workforce, goal);
    p.(buildings := p.buildings + added, totalCost := p.totalCost + SumOutlay(added))
  }

  /** Housing is only appended: the planet's production buildings stay first and unchanged. */
  lemma HousePlanetKeeps(st: State, p: RecommendedPlanet, goal: Option<string>)
    ensures HousePlanet(st, p, goal).buildings[..|p.buildings|] == p.buildings
    ensures HousePlanet(st, p, goal).planetId == p.planetId && HousePlanet(st, p, goal).siteId == p.siteId
    ensures HousePlanet(st, p, goal).workforce == p.workforce
  {
  }

  /** Every added housing building sits on the planet's site and has at least one unit. */
  lemma {:induction false} HousingAddedOnSite(st: State, p: RecommendedPlanet, wf: seq<(string, real)>, goal: Option<string>)
    ensures |HousingAdded(st, p, wf, goal)| <= |wf|
    ensures forall i :: 0 <= i < |HousingAdded(st, p, wf, goal)| ==>
              (HousingAdded(st, p, wf, goal)[i].planetId == Some(p.planetId)
               && HousingAdded(st, p, wf, goal)[i].siteId == Some(p.siteId)
               && HousingAdded(st, p, wf, goal)[i].amount >= 1)
  {
    if wf != [] {
      var e := wf[|wf| - 1];
      HousingAddedOnSite(st, p, wf[..|wf| - 1], goal);
      HousingFromSound(st, p, Candidates(st, HousingTable, e.0), e.1, goal);
    }
  }

  // ---- the housing loops ----

  method ComputeTypeCapacity(caps: seq<Capacity>, wfType: string) returns (total: real)
    ensures total == TypeCapacity(caps, wfType)
  {
    total := 0.0;
    var i := 0;
    while i < |caps|
      invariant 0 <= i <= |caps|
      invariant total == TypeCapacity(caps[..i], wfType)
    {
      assert caps[..i + 1][..i] == caps[..i];
      if caps[i].workforceType == wfType && caps[i].capacity > 0.0 {
        total := total + caps[i].capacity;
      }
      i := i + 1;
    }
    assert caps[..|caps|] == caps;
  }

  method CollectCandidates(st: State, wfType: string) returns (cs: seq<Candidate>)
    ensures cs == Candidates(st, HousingTable, wfType)
  {
    cs := [];
    var i := 0;
    while i < |HousingTable|
      invariant 0 <= i <= |HousingTable|
      invariant cs == Candidates(st, HousingTable[..i], wfType)
    {
      assert HousingTable[..i + 1][..i] == HousingTable[..i];
      var (ticker, caps) := HousingTable[i];
      if ticker in st.buildings {
        var cap := ComputeTypeCapacity(caps, wfType);
        if cap > 0.0 {
          var cost := ComputeConstructionCost(st, ticker);
          cs := cs + [Candidate(st.buildings[ticker], cost / cap, st.buildings[ticker].area / cap, cap)];
        }
      }
      i := i + 1;
    }
    assert HousingTable[..|HousingTable|] == HousingTable;
  }

  /** The head of the stably sorted candidates: replace only on a strictly smaller key. */
  method ChooseCandidate(cs: seq<Candidate>, goal: Option<string>) returns (k: nat)
    requires |cs| > 0
    ensures k == FirstMinimum(cs, goal)
  {
    k := 0;
    var i := 1;
    while i < |cs|
      invariant 1 <= i <= |cs|
      invariant k == FirstMinimum(cs[..i], goal)
    {
      assert cs[..i + 1][..i] == cs[..i];
      if Key(cs[i], goal) < Key(cs[k], goal) {
        k := i;
      }
      i := i + 1;
    }
    assert cs[..|cs|] == cs;
  }

  /** The housing decision for one workforce type: candidates, the stable-sort head, its unit count and price. */
  method HousingStep(st: State, p: RecommendedPlanet, wfType: string, demand: real, goal: Option<string>)
    returns (h: Option<RecommendedBuilding>)
    ensures h == HousingFor(st, p, wfType, demand, goal)
  {
    if demand <= 0.0 {
      return None;
    }
    var cs := CollectCandidates(st, wfType);
    if cs == [] {
      return None;
    }
    var k := ChooseCandidate(cs, goal);
    var c := cs[k];
    var price := ComputeConstructionCost(st, c.def.ticker);
    return Some(RecommendedBuilding(c.def.ticker, c.def.name, CountFor(demand, c.capacity),
                                    price, Some(p.planetId), Some(p.siteId)));
  }

  lemma HousingAddedStep(st: State, p: RecommendedPlanet, wf: seq<(string, real)>, i: nat, goal: Option<string>)
    requires i < |wf|
    ensures HousingAdded(st, p, wf[..i + 1], goal)
         == HousingAdded(st, p, wf[..i], goal)
            + (match HousingFor(st, p, wf[i].0, wf[i].1, goal) case Some(b) => [b] case None => [])
  {
    assert wf[..i + 1][..i] == wf[..i];
  }

  lemma SumOutlayAppend(bs: seq<RecommendedBuilding>, b: RecommendedBuilding)
    ensures SumOutlay(bs + [b]) == SumOutlay(bs) + Outlay(b)
  {
    assert (bs + [b])[..|bs|] == bs;
  }

  /** One iteration of the workforce loop: plan the housing for entry `i` and add its cost. */
  method HouseOneType(st: State, p: RecommendedPlanet, goal: Option<string>, i: nat, added: seq<RecommendedBuilding>, cost: real)
    returns (added': seq<RecommendedBuilding>, cost': real)
    requires i < |p.workforce| && added == HousingAdded(st, p, p.workforce[..i], goal) && cost == SumOutlay(added)
    ensures added' == HousingAdded(st, p, p.workforce[..i + 1], goal) && cost' == SumOutlay(added')
  {
    HousingAddedStep(st, p, p.workforce, i, goal);
    var h := HousingStep(st, p, p.workforce[i].0, p.workforce[i].1, goal);
    if h.Some? {
      SumOutlayAppend(added, h.value);
      added' := added + [h.value];
      cost' := cost + Outlay(h.value);
    } else {
      assert added + [] == added;
      added', cost' := added, cost;
    }
  }

  /** The loop over one planet's workforce demand; the planned housing is appended to the planet at the end. */
  method HouseOnePlanet(st: State, p: RecommendedPlanet, goal: Option<string>) returns (p': RecommendedPlanet)
    ensures p' == HousePlanet(st, p, goal)
  {
    var added: seq<RecommendedBuilding> := [];
    var cost := 0.0;
    var i := 0;
    while i < |p.workforce|
      invariant 0 <= i <= |p.workforce|
      invariant added == HousingAdded(st, p, p.workforce[..i], goal)
      invariant cost == SumOutlay(added)
    {
      added, cost := HouseOneType(st, p, goal, i, added, cost);
      i := i + 1;
    }
    assert p.workforce[..|p.workforce|] == p.workforce;
    p' := p.(buildings := p.buildings + added, totalCost := p.totalCost + cost);
  }

  lemma PlanCostSnoc(plan: seq<RecommendedPlanet>, p: RecommendedPlanet)
    ensures PlanCost(plan + [p]) == PlanCost(plan) + p.totalCost
  {
    assert (plan + [p])[..|plan|] == plan;
  }

  /** One iteration of the planet loop: house planet `i` and add the change in its cost to the total. */
  method HouseNextPlanet(st: State, plan: seq<RecommendedPlanet>, overall: real, goal: Option<string>, i: nat,
                         housed: seq<RecommendedPlanet>, total: real)
    returns (housed': seq<RecommendedPlanet>, total': real)
    requires i < |plan| && |housed| == i
    requires forall j :: 0 <= j < i ==> housed[j] == HousePlanet(st, plan[j], goal)
    requires total == overall + PlanCost(housed) - PlanCost(plan[..i])
    ensures |housed'| == i + 1
    ensures forall j :: 0 <= j < i + 1 ==> housed'[j] == HousePlanet(st, plan[j], goal)
    ensures total' == overall + PlanCost(housed') - PlanCost(plan[..i + 1])
  {
    var h := HouseOnePlanet(st, plan[i], goal);
    PlanCostSnoc(housed, h);
    PlanCostSnoc(plan[..i], plan[i]);
    assert plan[..i + 1] == plan[..i] + [plan[i]];
    total' := total + (h.totalCost - plan[i].totalCost);
    housed' := housed + [h];
  }

  /** The housing pass over every recommended planet, in insertion order. */
  method PlanHousing(st: State, plan: seq<RecommendedPlanet>, overall: real, goal: Option<string>)
    returns (plan': seq<RecommendedPlanet>, overall': real)
    ensures |plan'| == |plan|
    ensures forall i :: 0 <= i < |plan| ==> plan'[i] == HousePlanet(st, plan[i], goal)
    ensures overall' == overall + PlanCost(plan') - PlanCost(plan)
  {
    plan' := [];
    overall' := overall;
    var i := 0;
    while i < |plan|
      invariant 0 <= i <= |plan|
      invariant |plan'| == i
      invariant forall j :: 0 <= j < i ==> plan'[j] == HousePlanet(st, plan[j], goal)
      invariant overall' == overall + PlanCost(plan') - PlanCost(plan[..i])
    {
      plan', overall' := HouseNextPlanet(st, plan, overall, goal, i, plan', overall');
      i := i + 1;
    }
    assert plan[..|plan|] == plan;
  }

  // ---- permits ----

  /** The permits bought for a new site of the given area (500 with the first permit, 250 per extra one, at most 2). */
  function Permits(siteArea: real): (n: int)
    ensures 0 <= n <= MaxAdditionalPermits
  {
    var maxArea := BaseMaxAreaFirstPermit + MaxAdditionalPermits as real * AdditionalAreaPerPermit;
    var deficit := siteArea - BaseMaxAreaFirstPermit;
    var wanted := ApproxCeil(deficit / AdditionalAreaPerPermit);
    var bounded := if MaxAdditionalPermits < (if wanted > 0 then wanted else 0) then MaxAdditionalPermits
                   else (if wanted > 0 then wanted else 0);
    if siteArea > maxArea then bounded
    else if deficit > 0.0 then bounded
    else 0
  }

  /** Between no extra permit and MAX_ADDITIONAL_PERMITS; none while the base area suffices. */
  lemma PermitsBounds(siteArea: real)
    ensures 0 <= Permits(siteArea) <= MaxAdditionalPermits
    ensures siteArea <= BaseMaxAreaFirstPermit ==> Permits(siteArea) == 0
  {
  }

  /**
   * The exact count: the `+ 0.99` idiom buys no permit for a deficit
   * under 2.5 and only one for a deficit under 252.5, so sites just over
   * 500 or 750 are charged one permit too few.
   */
  lemma PermitsTable(siteArea: real)
    ensures siteArea < 502.5 ==> Permits(siteArea) == 0
    ensures 502.5 <= siteArea < 752.5 ==> Permits(siteArea) == 1
    ensures 752.5 <= siteArea ==> Permits(siteArea) == 2
  {
    var x := (siteArea - 500.0) / 250.0;
    if 502.5 <= siteArea < 752.5 {
      assert 1.0 <= x + 0.99 < 2.0;
      assert (x + 0.99).Floor == 1;
    } else if 752.5 <= siteArea {
      assert x + 0.99 >= 2.0;
    } else if 500.0 < siteArea {
      assert 0.99 < x + 0.99 < 1.0;
      assert (x + 0.99).Floor == 0;
    }
  }

  /** `SITE_BASE_AREA_COST` plus the area of every defined building on the site. */
  function SiteArea(st: State, bs: seq<RecommendedBuilding>): real
  {
    SiteBaseAreaCost + UsedArea(st, bs)
  }

  /** A site holding only production buildings placed under the area bound never reaches the over-capacity branch. */
  lemma PlacedSiteWithinPermits(st: State, p: RecommendedPlanet)
    requires PlanetValid(st, p)
    ensures SiteArea(st, p.buildings) <= BaseMaxAreaFirstPermit + MaxAdditionalPermits as real * AdditionalAreaPerPermit
  {
  }

  function PermitFee(st: State, p: RecommendedPlanet): real
  {
    Permits(SiteArea(st, p.buildings)) as real * PermitCost
  }

  /** The permit pass on one planet: only its total cost changes, by between nothing and the fee for the maximum of permits. */
  function WithPermits(st: State, p: RecommendedPlanet): (q: RecommendedPlanet)
    ensures q == p.(totalCost := q.totalCost)
    ensures p.totalCost <= q.totalCost <= p.totalCost + MaxAdditionalPermits as real * PermitCost
  {
    p.(totalCost := p.totalCost + PermitFee(st, p))
  }

  method ComputeSiteArea(st: State, bs: seq<RecommendedBuilding>) returns (area: real)
    ensures area == SiteArea(st, bs)
  {
    area := SiteBaseAreaCost;
    var i := 0;
    while i < |bs|
      invariant 0 <= i <= |bs|
      invariant area == SiteBaseAreaCost + UsedArea(st, bs[..i])
    {
      assert bs[..i + 1][..i] == bs[..i];
      if bs[i].ticker in st.buildings {
        area := area + st.buildings[bs[i].ticker].area * bs[i].amount as real;
      }
      i := i + 1;
    }
    assert bs[..|bs|] == bs;
  }

  /** The permit pass over every recommended planet. */
  method ApplyPermits(st: State, plan: seq<RecommendedPlanet>, overall: real)
    returns (plan': seq<RecommendedPlanet>, overall': real)
    ensures |plan'| == |plan|
    ensures forall i :: 0 <= i < |plan| ==> plan'[i] == WithPermits(st, plan[i])
    ensures overall' == overall + PlanCost(plan') - PlanCost(plan)
  {
    plan' := [];
    overall' := overall;
    var i := 0;
    while i < |plan|
      invariant 0 <= i <= |plan|
      invariant |plan'| == i
      invariant forall j :: 0 <= j < i ==> plan'[j] == WithPermits(st, plan[j])
      invariant overall' == overall + PlanCost(plan') - PlanCost(plan[..i])
    {
      var area := ComputeSiteArea(st, plan[i].buildings);
      var permits := Permits(area);
      var fee := permits as real * PermitCost;
      assert plan[..i + 1][..i] == plan[..i];
      assert (plan' + [WithPermits(st, plan[i])])[..i] == plan';
      plan' := plan' + [plan[i].(totalCost := plan[i].totalCost + fee)];
      overall' := overall' + fee;
      i := i + 1;
    }
    assert plan[..|plan|] == plan;
  }
}
