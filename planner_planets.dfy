/**
 * Planet suitability and `find_best_expansion_planet`: which planets can
 * host production of a COGC category, and the random pick among them that
 * prefers planets running a matching COGC advertising program.
 */
module PlanetSelection {
  import opened Wrappers
  import opened PlannerModel

  /** The categories for which industrial infrastructure makes a planet suitable. */
  const ProcessingCategories: set<string> :=
    {"METALURGY", "REFINING", "CHEMICAL", "FOOD_PROCESSING", "PROCESSED_GOOD", "RECYCLING"}

  /** The COGC program type that boosts a category. */
  function ProgramTypeFor(category: string): string
  {
    "ADVERTISING_" + category
  }

  /** One program of the planet is of the given type, runs at `now`, and the planet's COGC status is ACTIVE. */
  predicate ProgramRunning(p: PlanetData, prog: CogcProgram, programType: string, now: int)
  {
    prog.programType == Some(programType) && prog.startEpochMs <= now <= prog.endEpochMs
    && p.programStatus == Some("ACTIVE")
  }

  predicate ProgramActive(p: PlanetData, programType: string, now: int)
  {
    exists i :: 0 <= i < |p.programs| && ProgramRunning(p, p.programs[i], programType, now)
  }

  /** A recipe run in building `b` that has at least one output. */
  predicate Extracts(r: Recipe, b: string)
  {
    r.buildingTicker == b && |r.outputs| > 0
  }

  /** The ticker of the first output of the first recipe of building `b` that has outputs. */
  function ExtractedMaterial(recipes: seq<Recipe>, b: string): (m: Option<string>)
    ensures m.None? <==> forall i :: 0 <= i < |recipes| ==> !Extracts(recipes[i], b)
    ensures m.Some? ==> exists i :: 0 <= i < |recipes| && Extracts(recipes[i], b) && recipes[i].outputs[0].ticker == m.value
  {
    if recipes == [] then None
    else if Extracts(recipes[0], b) then Some(recipes[0].outputs[0].ticker)
    else
      var m := ExtractedMaterial(recipes[1..], b);
      assert forall i :: 1 <= i < |recipes| ==> recipes[i] == recipes[1..][i - 1];
      m
  }

  /** The id of the first material with the ticker. */
  function MaterialIdOf(materials: seq<Material>, t: string): (id: Option<string>)
    ensures id.None? <==> forall i :: 0 <= i < |materials| ==> materials[i].ticker != t
    ensures id.Some? ==> exists i :: 0 <= i < |materials| && materials[i].ticker == t && materials[i].materialId == id.value
  {
    if materials == [] then None
    else if materials[0].ticker == t then Some(materials[0].materialId)
    else
      var id := MaterialIdOf(materials[1..], t);
      assert forall i :: 1 <= i < |materials| ==> materials[i] == materials[1..][i - 1];
      id
  }

  /** RIG extracts liquids, EXT minerals, COL gases. */
  predicate KindMatches(b: string, resourceType: string)
  {
    (b == "RIG" && resourceType == "LIQUID") || (b == "EXT" && resourceType == "MINERAL")
    || (b == "COL" && resourceType == "GASEOUS")
  }

  predicate ResourceFits(r: Resource, materialId: string, b: string)
  {
    r.materialId == materialId && r.factor > 0.0 && KindMatches(b, r.resourceType)
  }

  predicate HasResourceFor(p: PlanetData, materialId: string, b: string)
  {
    exists i :: 0 <= i < |p.resources| && ResourceFits(p.resources[i], materialId, b)
  }

  /** `any(r.Factor > 0 for r in planet.Resources)`. */
  predicate HasAnyResource(p: PlanetData)
  {
    exists i :: 0 <= i < |p.resources| && p.resources[i].factor > 0.0
  }

  /**
   * The precise extraction check: building `b` extracts a known material
   * that the planet holds with a positive factor and in the form `b` extracts.
   */
  predicate SpecificResource(st: State, p: PlanetData, b: string)
  {
    var m := ExtractedMaterial(st.recipes, b);
    TruthyId(m) && TruthyId(MaterialIdOf(st.materials, m.value))
    && HasResourceFor(p, MaterialIdOf(st.materials, m.value).value, b)
  }

  /** The selector's suitability test for a planet, by category. */
  predicate SelectorSuitable(st: State, p: PlanetData, category: Option<string>, b: string, now: int)
  {
    if category == Some("AGRICULTURE") then p.fertility > 0.0
    else if category == Some("RESOURCE_EXTRACTION") then
      if b != "" && TruthyId(ExtractedMaterial(st.recipes, b)) then SpecificResource(st, p, b)
      else HasAnyResource(p)
    else if category.Some? && category.value in ProcessingCategories then
      ProgramActive(p, ProgramTypeFor(category.value), now) || p.hasLocalMarket || p.hasChamberOfCommerce
    else true
  }

  /**
   * The placement loop's own suitability test (run_simulation). It differs
   * from the selector's: an AGRICULTURE building on an infertile planet
   * falls through to the final "generally suitable" case, and extraction
   * has no fallback to the general resource check.
   */
  predicate PlacementSuitable(st: State, p: PlanetData, category: Option<string>, b: string, now: int)
  {
    if category == Some("AGRICULTURE") && p.fertility > 0.0 then true
    else if category == Some("RESOURCE_EXTRACTION") then SpecificResource(st, p, b)
    else if category.Some? && category.value in ProcessingCategories then
      ProgramActive(p, ProgramTypeFor(category.value), now) || p.hasLocalMarket || p.hasChamberOfCommerce
    else true
  }

  /** The suitable planets, in order. */
  function SuitablePlanets(st: State, ps: seq<PlanetData>, category: Option<string>, b: string, now: int)
    : (r: seq<PlanetData>)
    ensures forall x :: x in r <==> x in ps && SelectorSuitable(st, x, category, b, now)
    ensures |r| <= |ps|
  {
    if ps == [] then []
    else
      var last := ps[|ps| - 1];
      var init := SuitablePlanets(st, ps[..|ps| - 1], category, b, now);
      assert ps == ps[..|ps| - 1] + [last];
      init + (if SelectorSuitable(st, last, category, b, now) then [last] else [])
  }

  /** The candidates running the boosting program, in order. */
  function ActivePlanets(ps: seq<PlanetData>, programType: string, now: int): (r: seq<PlanetData>)
    ensures forall x :: x in r <==> x in ps && ProgramActive(x, programType, now)
  {
    if ps == [] then []
    else
      var last := ps[|ps| - 1];
      var init := ActivePlanets(ps[..|ps| - 1], programType, now);
      assert ps == ps[..|ps| - 1] + [last];
      init + (if ProgramActive(last, programType, now) then [last] else [])
  }

  /** The preferred tier; there is none without a (non-empty) category. */
  function PreferredPlanets(candidates: seq<PlanetData>, category: Option<string>, now: int): seq<PlanetData>
  {
    if TruthyId(category) then ActivePlanets(candidates, ProgramTypeFor(category.value), now) else []
  }

  /**
   * What `find_best_expansion_planet` returns when `random.choice` draws
   * `choice` (reduced modulo the size of the pool it draws from).
   */
  function SelectPlanet(st: State, category: Option<string>, b: string, now: int, choice: nat): (r: Option<PlanetData>)
    ensures r.Some? <==> SuitablePlanets(st, st.planets, category, b, now) != []
    ensures r.Some? ==> r.value in SuitablePlanets(st, st.planets, category, b, now)
    ensures r.Some? && PreferredPlanets(SuitablePlanets(st, st.planets, category, b, now), category, now) != [] ==>
      r.value in PreferredPlanets(SuitablePlanets(st, st.planets, category, b, now), category, now)
  {
    var candidates := SuitablePlanets(st, st.planets, category, b, now);
    var preferred := PreferredPlanets(candidates, category, now);
    if candidates == [] then None
    else if preferred != [] then Some(preferred[choice % |preferred|])
    else Some(candidates[choice % |candidates|])
  }

  /**
   * The selector finds a planet exactly when some planet is suitable, the
   * planet it finds is suitable, and when a suitable planet runs the
   * boosting program the pick runs it too.
   */
  lemma SelectPlanetSound(st: State, category: Option<string>, b: string, now: int, choice: nat)
    ensures SelectPlanet(st, category, b, now, choice).None? <==>
      forall p :: p in st.planets ==> !SelectorSuitable(st, p, category, b, now)
    ensures SelectPlanet(st, category, b, now, choice).Some? ==>
      SelectPlanet(st, category, b, now, choice).value in st.planets
      && SelectorSuitable(st, SelectPlanet(st, category, b, now, choice).value, category, b, now)
    ensures TruthyId(category) && SelectPlanet(st, category, b, now, choice).Some?
      && (exists p :: p in st.planets && SelectorSuitable(st, p, category, b, now) && ProgramActive(p, ProgramTypeFor(category.value), now))
      ==> ProgramActive(SelectPlanet(st, category, b, now, choice).value, ProgramTypeFor(category.value), now)
  {
    var candidates := SuitablePlanets(st, st.planets, category, b, now);
    if candidates != [] {
      assert candidates[0] in candidates;
      var preferred := PreferredPlanets(candidates, category, now);
      if preferred != [] {
        assert preferred[choice % |preferred|] in preferred;
      } else {
        assert candidates[choice % |candidates|] in candidates;
        if TruthyId(category) {
          forall p | p in st.planets && SelectorSuitable(st, p, category, b, now)
            ensures !ProgramActive(p, ProgramTypeFor(category.value), now)
          {
            assert p in candidates;
            assert p !in preferred;
          }
        }
      }
    } else {
      forall p | p in st.planets ensures !SelectorSuitable(st, p, category, b, now) {
        assert p !in candidates;
      }
    }
  }

  /** Placement accepts an AGRICULTURE building on any planet, fertile or not. */
  lemma PlacementIgnoresFertility(st: State, p: PlanetData, b: string, now: int)
    ensures PlacementSuitable(st, p, Some("AGRICULTURE"), b, now)
    ensures SelectorSuitable(st, p, Some("AGRICULTURE"), b, now) <==> p.fertility > 0.0
  {
    assert "AGRICULTURE" !in ProcessingCategories;
  }

  /** The planet selector and the placement loop agree except where the placement test is looser. */
  lemma SelectorStricterThanPlacement(st: State, p: PlanetData, category: Option<string>, b: string, now: int)
    requires SelectorSuitable(st, p, category, b, now)
    requires category == Some("RESOURCE_EXTRACTION") ==> b != "" && TruthyId(ExtractedMaterial(st.recipes, b))
    ensures PlacementSuitable(st, p, category, b, now)
  {
  }

  // ---- the imperative selector ----

  /** The loop over the planet's programs, stopping at the first active match. */
  method CheckActiveProgram(p: PlanetData, programType: string, now: int) returns (active: bool)
    ensures active == ProgramActive(p, programType, now)
  {
    active := false;
    var i := 0;
    while i < |p.programs|
      invariant 0 <= i <= |p.programs|
      invariant forall j :: 0 <= j < i ==> !ProgramRunning(p, p.programs[j], programType, now)
    {
      if ProgramRunning(p, p.programs[i], programType, now) {
        active := true;
        return;
      }
      i := i + 1;
    }
  }

  /** The loop over the recipes that finds what building `b` extracts. */
  method FindExtractedMaterial(recipes: seq<Recipe>, b: string) returns (m: Option<string>)
    ensures m == ExtractedMaterial(recipes, b)
  {
    m := None;
    var i := 0;
    while i < |recipes|
      invariant 0 <= i <= |recipes|
      invariant ExtractedMaterial(recipes, b) == ExtractedMaterial(recipes[i..], b)
    {
      assert recipes[i..][1..] == recipes[i + 1..];
      if recipes[i].buildingTicker == b && |recipes[i].outputs| > 0 {
        m := Some(recipes[i].outputs[0].ticker);
        return;
      }
      i := i + 1;
    }
  }

  /** The loop over the planet's resources for one that `b` can extract. */
  method FindResource(p: PlanetData, materialId: string, b: string) returns (found: bool)
    ensures found == HasResourceFor(p, materialId, b)
  {
    found := false;
    var i := 0;
    while i < |p.resources|
      invariant 0 <= i <= |p.resources|
      invariant forall j :: 0 <= j < i ==> !ResourceFits(p.resources[j], materialId, b)
    {
      var r := p.resources[i];
      if r.materialId == materialId && r.factor > 0.0 && KindMatches(b, r.resourceType) {
        found := true;
        return;
      }
      i := i + 1;
    }
  }

  /** The precise extraction check, as the loops compute it. */
  method CheckSpecificResource(st: State, p: PlanetData, b: string) returns (ok: bool)
    ensures ok == SpecificResource(st, p, b)
  {
    var m := FindExtractedMaterial(st.recipes, b);
    if !TruthyId(m) {
      return false;
    }
    var id := MaterialIdOf(st.materials, m.value);
    if !TruthyId(id) {
      return false;
    }
    ok := FindResource(p, id.value, b);
  }

  /** The body of the selector's planet loop: is this planet a candidate? */
  method CheckSelectorSuitable(st: State, p: PlanetData, category: Option<string>, b: string, now: int)
    returns (ok: bool)
    ensures ok == SelectorSuitable(st, p, category, b, now)
  {
    if category == Some("AGRICULTURE") {
      ok := p.fertility > 0.0;
    } else if category == Some("RESOURCE_EXTRACTION") {
      var m: Option<string> := None;
      if b != "" {
        m := FindExtractedMaterial(st.recipes, b);
      }
      if b != "" && TruthyId(m) {
        ok := CheckSpecificResource(st, p, b);
      } else {
        ok := HasAnyResource(p);
      }
    } else if category.Some? && category.value in ProcessingCategories {
      var active := CheckActiveProgram(p, ProgramTypeFor(category.value), now);
      ok := active || p.hasLocalMarket || p.hasChamberOfCommerce;
    } else {
      ok := true;
    }
  }

  /** `find_best_expansion_planet`, with the clock and the random draw as inputs. */
  method FindBestExpansionPlanet(st: State, category: Option<string>, b: string, now: int, choice: nat)
    returns (best: Option<PlanetData>)
    ensures best == SelectPlanet(st, category, b, now, choice)
  {
    var candidates: seq<PlanetData> := [];
    var i := 0;
    while i < |st.planets|
      invariant 0 <= i <= |st.planets|
      invariant candidates == SuitablePlanets(st, st.planets[..i], category, b, now)
    {
      var ok := CheckSelectorSuitable(st, st.planets[i], category, b, now);
      assert st.planets[..i + 1][..i] == st.planets[..i];
      if ok {
        candidates := candidates + [st.planets[i]];
      }
      i := i + 1;
    }
    assert st.planets[..|st.planets|] == st.planets;
    if candidates == [] {
      return None;
    }
    var preferred := PreferredPlanets(candidates, category, now);
    if preferred != [] {
      best := Some(preferred[choice % |preferred|]);
    } else {
      best := Some(candidates[choice % |candidates|]);
    }
  }
}
