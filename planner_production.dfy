/**
 * `calculate_current_production`: the company's present output of one
 * material in units per day, from its running production orders.
 */
module ProductionRates {
  import opened Wrappers
  import opened PlannerModel

  /** Units per day one output line yields when a cycle takes `dur` ms. */
  function ItemRate(o: RecipeItem, t: string, dur: int): real
  {
    if o.ticker == t && dur > 0 then o.amount as real * (MsInDay / dur as real) else 0.0
  }

  function OutputsRate(outs: seq<RecipeItem>, t: string, dur: int): real
  {
    if outs == [] then 0.0
    else OutputsRate(outs[..|outs| - 1], t, dur) + ItemRate(outs[|outs| - 1], t, dur)
  }

  /** An order counts while it is not halted and has a completion time. */
  predicate Running(o: ProductionOrder)
  {
    !o.isHalted && o.completionEpochMs.Some?
  }

  function OrderRate(st: State, o: ProductionOrder, t: string): real
  {
    if !Running(o) then 0.0
    else match FindRecipe(st.recipes, o.recipeName)
      case None => 0.0
      case Some(r) => OutputsRate(r.outputs, t, o.durationMs)
  }

  predicate LinkedTo(o: ProductionOrder, inst: BuildingInstance)
  {
    o.buildingId == Some(inst.siteBuildingId)
  }

  /** The orders whose BuildingId is the instance's SiteBuildingId, in order. */
  function LinkedOrders(orders: seq<ProductionOrder>, inst: BuildingInstance): seq<ProductionOrder>
  {
    if orders == [] then []
    else
      var last := orders[|orders| - 1];
      LinkedOrders(orders[..|orders| - 1], inst) + (if LinkedTo(last, inst) then [last] else [])
  }

  function OrdersRate(st: State, os: seq<ProductionOrder>, t: string): real
  {
    if os == [] then 0.0 else OrdersRate(st, os[..|os| - 1], t) + OrderRate(st, os[|os| - 1], t)
  }

  /** A building instance without a building definition contributes nothing. */
  function BuildingRate(st: State, inst: BuildingInstance, t: string): real
  {
    if inst.buildingTicker !in st.buildings then 0.0
    else OrdersRate(st, LinkedOrders(st.orders, inst), t)
  }

  function BuildingsRate(st: State, bs: seq<BuildingInstance>, t: string): real
  {
    if bs == [] then 0.0 else BuildingsRate(st, bs[..|bs| - 1], t) + BuildingRate(st, bs[|bs| - 1], t)
  }

  /** `if target_site_id and SiteId != target_site_id: continue` — an empty target filters nothing. */
  predicate InTarget(s: Site, target: Option<string>)
  {
    !TruthyId(target) || s.siteId == target.value
  }

  function SitesRate(st: State, ss: seq<Site>, t: string, target: Option<string>): real
  {
    if ss == [] then 0.0
    else
      var last := ss[|ss| - 1];
      SitesRate(st, ss[..|ss| - 1], t, target) + (if InTarget(last, target) then BuildingsRate(st, last.buildings, t) else 0.0)
  }

  /** The current rate: the sum over every counted order of each matching output's amount per cycle times cycles per day. */
  function CurrentProduction(st: State, t: string, target: Option<string>): real
  {
    SitesRate(st, st.sites, t, target)
  }

  /** Recipes with non-negative output amounts. */
  predicate NonNegativeOutputs(st: State)
  {
    forall i, j :: 0 <= i < |st.recipes| && 0 <= j < |st.recipes[i].outputs| ==> st.recipes[i].outputs[j].amount >= 0
  }

  lemma {:induction false} OutputsRateNonNegative(outs: seq<RecipeItem>, t: string, dur: int)
    requires forall j :: 0 <= j < |outs| ==> outs[j].amount >= 0
    ensures OutputsRate(outs, t, dur) >= 0.0
  {
    if outs != [] {
      OutputsRateNonNegative(outs[..|outs| - 1], t, dur);
      var o := outs[|outs| - 1];
      if o.ticker == t && dur > 0 {
        assert MsInDay / dur as real > 0.0;
      }
    }
  }

  lemma {:induction false} OrdersRateNonNegative(st: State, os: seq<ProductionOrder>, t: string)
    requires NonNegativeOutputs(st)
    ensures OrdersRate(st, os, t) >= 0.0
  {
    if os != [] {
      OrdersRateNonNegative(st, os[..|os| - 1], t);
      var o := os[|os| - 1];
      if Running(o) && FindRecipe(st.recipes, o.recipeName).Some? {
        var r := FindRecipe(st.recipes, o.recipeName).value;
        var i :| 0 <= i < |st.recipes| && st.recipes[i] == r;
        OutputsRateNonNegative(r.outputs, t, o.durationMs);
      }
    }
  }

  lemma {:induction false} BuildingsRateNonNegative(st: State, bs: seq<BuildingInstance>, t: string)
    requires NonNegativeOutputs(st)
    ensures BuildingsRate(st, bs, t) >= 0.0
  {
    if bs != [] {
      BuildingsRateNonNegative(st, bs[..|bs| - 1], t);
      OrdersRateNonNegative(st, LinkedOrders(st.orders, bs[|bs| - 1]), t);
    }
  }

  lemma {:induction false} SitesRateNonNegative(st: State, ss: seq<Site>, t: string, target: Option<string>)
    requires NonNegativeOutputs(st)
    ensures SitesRate(st, ss, t, target) >= 0.0
  {
    if ss != [] {
      SitesRateNonNegative(st, ss[..|ss| - 1], t, target);
      BuildingsRateNonNegative(st, ss[|ss| - 1].buildings, t);
    }
  }

  /** With non-negative recipe outputs the current rate is never negative. */
  lemma CurrentProductionNonNegative(st: State, t: string, target: Option<string>)
    requires NonNegativeOutputs(st)
    ensures CurrentProduction(st, t, target) >= 0.0
  {
    SitesRateNonNegative(st, st.sites, t, target);
  }

  lemma {:induction false} SitesRateMonotone(st: State, ss: seq<Site>, t: string, target: Option<string>)
    requires NonNegativeOutputs(st)
    ensures SitesRate(st, ss, t, target) <= SitesRate(st, ss, t, None)
  {
    if ss != [] {
      SitesRateMonotone(st, ss[..|ss| - 1], t, target);
      BuildingsRateNonNegative(st, ss[|ss| - 1].buildings, t);
    }
  }

  /** One site's current rate never exceeds the company-wide rate. */
  lemma SiteRateAtMostTotal(st: State, t: string, target: Option<string>)
    requires NonNegativeOutputs(st)
    ensures CurrentProduction(st, t, target) <= CurrentProduction(st, t, None)
  {
    SitesRateMonotone(st, st.sites, t, target);
  }

  /** The innermost loop: the matching outputs of one running order's recipe. */
  method OrderOutput(st: State, order: ProductionOrder, t: string) returns (rate: real)
    ensures rate == OrderRate(st, order, t)
  {
    rate := 0.0;
    if !order.isHalted && order.completionEpochMs.Some? {
      var recipe := FindRecipe(st.recipes, order.recipeName);
      if recipe.Some? {
        var outs := recipe.value.outputs;
        var n := 0;
        while n < |outs|
          invariant 0 <= n <= |outs|
          invariant rate == OutputsRate(outs[..n], t, order.durationMs)
        {
          assert outs[..n + 1][..n] == outs[..n];
          if outs[n].ticker == t && order.durationMs > 0 {
            var cyclesPerDay := MsInDay / order.durationMs as real;
            rate := rate + outs[n].amount as real * cyclesPerDay;
          }
          n := n + 1;
        }
        assert outs[..n] == outs;
      }
    }
  }

  /** One building instance: collect the orders linked to it, then add up their rates. */
  method BuildingOutput(st: State, inst: BuildingInstance, t: string) returns (rate: real)
    ensures rate == BuildingRate(st, inst, t)
  {
    rate := 0.0;
    if inst.buildingTicker in st.buildings {
      var linked: seq<ProductionOrder> := [];
      var k := 0;
      while k < |st.orders|
        invariant 0 <= k <= |st.orders|
        invariant linked == LinkedOrders(st.orders[..k], inst)
      {
        assert st.orders[..k + 1][..k] == st.orders[..k];
        if st.orders[k].buildingId == Some(inst.siteBuildingId) {
          linked := linked + [st.orders[k]];
        }
        k := k + 1;
      }
      assert st.orders[..k] == st.orders;
      var m := 0;
      while m < |linked|
        invariant 0 <= m <= |linked|
        invariant rate == OrdersRate(st, linked[..m], t)
      {
        assert linked[..m + 1][..m] == linked[..m];
        var r := OrderOutput(st, linked[m], t);
        rate := rate + r;
        m := m + 1;
      }
      assert linked[..m] == linked;
    }
  }

  /** The source's outer loops: over the sites (filtered by the target) and their buildings. */
  method CalculateCurrentProduction(st: State, t: string, target: Option<string>) returns (total: real)
    ensures total == CurrentProduction(st, t, target)
  {
    total := 0.0;
    var i := 0;
    while i < |st.sites|
      invariant 0 <= i <= |st.sites|
      invariant total == SitesRate(st, st.sites[..i], t, target)
    {
      var site := st.sites[i];
      assert st.sites[..i + 1][..i] == st.sites[..i];
      if InTarget(site, target) {
        ghost var before := total;
        var j := 0;
        while j < |site.buildings|
          invariant 0 <= j <= |site.buildings|
          invariant total == before + BuildingsRate(st, site.buildings[..j], t)
        {
          assert site.buildings[..j + 1][..j] == site.buildings[..j];
          var r := BuildingOutput(st, site.buildings[j], t);
          total := total + r;
          j := j + 1;
        }
        assert site.buildings[..j] == site.buildings;
      }
      i := i + 1;
    }
    assert st.sites[..i] == st.sites;
  }
}
