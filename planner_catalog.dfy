/**
 * Recipe lookup and COGC category classification:
 * `find_best_recipe_and_building`, `_get_material_production_category`
 * and `_get_building_expertise_category`.
 */
module RecipeCatalog {
  import opened Wrappers
  import opened PyStrings
  import opened PlannerModel

  /** A recipe the fallback search accepts: it yields `t` and names a known building. */
  predicate Usable(r: Recipe, buildings: map<string, Building>, t: string)
  {
    Produces(r, t) && r.buildingTicker != "" && r.buildingTicker in buildings
  }

  function FirstUsable(recipes: seq<Recipe>, buildings: map<string, Building>, t: string): (k: Option<nat>)
    ensures k.Some? ==> k.value < |recipes| && Usable(recipes[k.value], buildings, t)
    ensures k.Some? ==> forall j :: 0 <= j < k.value ==> !Usable(recipes[j], buildings, t)
    ensures k.None? ==> forall j :: 0 <= j < |recipes| ==> !Usable(recipes[j], buildings, t)
  {
    if recipes == [] then None
    else if Usable(recipes[0], buildings, t) then Some(0)
    else match FirstUsable(recipes[1..], buildings, t)
      case None => None
      case Some(k) => Some(k + 1)
  }

  /** The preferred recipe and building are taken when both exist and belong together. */
  predicate PreferredValid(recipes: seq<Recipe>, buildings: map<string, Building>, t: string,
                           prefRecipe: Option<string>, prefBuilding: Option<string>)
  {
    TruthyId(prefRecipe) && TruthyId(prefBuilding)
    && FindRecipe(recipes, prefRecipe.value).Some? && prefBuilding.value in buildings
    && Produces(FindRecipe(recipes, prefRecipe.value).value, t)
    && FindRecipe(recipes, prefRecipe.value).value.buildingTicker == prefBuilding.value
  }

  /**
   * The preferred pair when it is valid; otherwise the first recipe in
   * catalogue order that yields `t` and whose building exists; otherwise
   * (None, None).
   */
  function FindBestRecipeAndBuilding(recipes: seq<Recipe>, buildings: map<string, Building>, t: string,
                                     prefRecipe: Option<string>, prefBuilding: Option<string>)
    : (res: (Option<Recipe>, Option<string>))
    ensures res.0.Some? <==> res.1.Some?
    ensures res.0.Some? ==> Usable(res.0.value, buildings, t) && res.0.value.buildingTicker == res.1.value
    ensures res.0.Some? ==> res.0.value in recipes
    ensures PreferredValid(recipes, buildings, t, prefRecipe, prefBuilding) ==>
      res.0 == FindRecipe(recipes, prefRecipe.value) && res.1 == prefBuilding
    ensures !PreferredValid(recipes, buildings, t, prefRecipe, prefBuilding) ==>
      (res.0.None? <==> forall j :: 0 <= j < |recipes| ==> !Usable(recipes[j], buildings, t))
    ensures !PreferredValid(recipes, buildings, t, prefRecipe, prefBuilding) && res.0.Some? ==>
      exists k :: 0 <= k < |recipes| && recipes[k] == res.0.value
        && forall j :: 0 <= j < k ==> !Usable(recipes[j], buildings, t)
  {
    if PreferredValid(recipes, buildings, t, prefRecipe, prefBuilding) then
      (FindRecipe(recipes, prefRecipe.value), prefBuilding)
    else
      match FirstUsable(recipes, buildings, t)
      case None => (None, None)
      case Some(k) => (Some(recipes[k]), Some(recipes[k].buildingTicker))
  }

  /** A building definition whose expertise is set and non-empty. */
  predicate HasExpertise(b: Building)
  {
    b.expertise.Some? && b.expertise.value != ""
  }

  /** `_get_building_expertise_category`: the upper-cased expertise of a known building, else None. */
  function BuildingCategory(buildings: map<string, Building>, b: string): (c: Option<string>)
    ensures c.Some? <==> b in buildings && HasExpertise(buildings[b])
    ensures c.Some? ==> c.value == Upper(buildings[b].expertise.value) && c.value != ""
  {
    if b in buildings && HasExpertise(buildings[b]) then Some(Upper(buildings[b].expertise.value)) else None
  }

  /** A recipe that yields `t` in a named building. */
  predicate Yields(r: Recipe, t: string)
  {
    Produces(r, t) && r.buildingTicker != ""
  }

  /** The building tickers of the recipes that yield `t`, skipping empty tickers. */
  function Producers(recipes: seq<Recipe>, t: string): (ps: seq<string>)
    ensures forall x :: x in ps <==> (exists i :: 0 <= i < |recipes| && Yields(recipes[i], t) && recipes[i].buildingTicker == x)
  {
    if recipes == [] then []
    else
      var rest := Producers(recipes[1..], t);
      assert forall x :: x in rest <==> (exists i :: 1 <= i < |recipes| && Yields(recipes[i], t) && recipes[i].buildingTicker == x) by {
        forall x | x in rest ensures exists i :: 1 <= i < |recipes| && Yields(recipes[i], t) && recipes[i].buildingTicker == x {
          var i :| 0 <= i < |recipes[1..]| && Yields(recipes[1..][i], t) && recipes[1..][i].buildingTicker == x;
          assert recipes[i + 1] == recipes[1..][i];
        }
        forall x, i | 1 <= i < |recipes| && Yields(recipes[i], t) && recipes[i].buildingTicker == x ensures x in rest {
          assert recipes[1..][i - 1] == recipes[i];
        }
      }
      if Yields(recipes[0], t) then [recipes[0].buildingTicker] + rest else rest
  }

  function FirstCategory(tickers: seq<string>, buildings: map<string, Building>): (c: Option<string>)
    ensures c.Some? ==> exists x :: x in tickers && BuildingCategory(buildings, x) == c
    ensures c.None? <==> forall x :: x in tickers ==> BuildingCategory(buildings, x).None?
  {
    if tickers == [] then None
    else if BuildingCategory(buildings, tickers[0]).Some? then BuildingCategory(buildings, tickers[0])
    else
      var c := FirstCategory(tickers[1..], buildings);
      assert forall x :: x in tickers[1..] ==> x in tickers;
      c
  }

  /**
   * `_get_material_production_category`. The source collects the producing
   * buildings into a set and returns the category of whichever member it
   * meets first; this model visits them in recipe order, which is one of
   * the orders a set can yield. What every order shares is stated here:
   * the result is the category of some building that yields `t`, and it is
   * None exactly when no such building has an expertise.
   */
  function MaterialCategory(recipes: seq<Recipe>, buildings: map<string, Building>, t: string): (c: Option<string>)
    ensures c.Some? ==> exists i :: 0 <= i < |recipes| && Yields(recipes[i], t) && BuildingCategory(buildings, recipes[i].buildingTicker) == c
    ensures c.None? <==> forall i :: 0 <= i < |recipes| && Yields(recipes[i], t) ==> BuildingCategory(buildings, recipes[i].buildingTicker).None?
    ensures c.Some? ==> c.value != ""
  {
    var ps := Producers(recipes, t);
    FirstCategory(ps, buildings)
  }

  // ---- the loops ----

  /** The fallback loop over the catalogue, returning at the first usable recipe. */
  method FindUsable(recipes: seq<Recipe>, buildings: map<string, Building>, t: string) returns (k: Option<nat>)
    ensures k == FirstUsable(recipes, buildings, t)
  {
    for i := 0 to |recipes|
      invariant forall j :: 0 <= j < i ==> !Usable(recipes[j], buildings, t)
    {
      if Usable(recipes[i], buildings, t) {
        return Some(i);
      }
    }
    return None;
  }

  /** `find_best_recipe_and_building`: the preferred pair when valid, else the fallback loop. */
  method SearchRecipeAndBuilding(recipes: seq<Recipe>, buildings: map<string, Building>, t: string,
                                 prefRecipe: Option<string>, prefBuilding: Option<string>)
    returns (res: (Option<Recipe>, Option<string>))
    ensures res == FindBestRecipeAndBuilding(recipes, buildings, t, prefRecipe, prefBuilding)
  {
    if PreferredValid(recipes, buildings, t, prefRecipe, prefBuilding) {
      return (FindRecipe(recipes, prefRecipe.value), prefBuilding);
    }
    var k := FindUsable(recipes, buildings, t);
    if k.None? {
      return (None, None);
    }
    res := (Some(recipes[k.value]), Some(recipes[k.value].buildingTicker));
  }

  /** One more recipe adds its building ticker at the end, when it yields `t` in a named building. */
  lemma {:induction false} ProducersSnoc(recipes: seq<Recipe>, r: Recipe, t: string)
    ensures Producers(recipes + [r], t) == Producers(recipes, t) + (if Yields(r, t) then [r.buildingTicker] else [])
  {
    if recipes != [] {
      assert (recipes + [r])[1..] == recipes[1..] + [r];
      ProducersSnoc(recipes[1..], r, t);
    }
  }

  /** The loop collecting `producing_building_tickers`, in recipe order. */
  method CollectProducers(recipes: seq<Recipe>, t: string) returns (ps: seq<string>)
    ensures ps == Producers(recipes, t)
  {
    ps := [];
    for i := 0 to |recipes|
      invariant ps == Producers(recipes[..i], t)
    {
      ProducersSnoc(recipes[..i], recipes[i], t);
      assert recipes[..i + 1] == recipes[..i] + [recipes[i]];
      if Yields(recipes[i], t) {
        ps := ps + [recipes[i].buildingTicker];
      }
    }
    assert recipes[..|recipes|] == recipes;
  }

  /** The loop over the producing buildings, returning the first category found. */
  method FindCategory(tickers: seq<string>, buildings: map<string, Building>) returns (c: Option<string>)
    ensures c == FirstCategory(tickers, buildings)
  {
    for i := 0 to |tickers|
      invariant FirstCategory(tickers[i..], buildings) == FirstCategory(tickers, buildings)
    {
      assert tickers[i..][1..] == tickers[i + 1..];
      var category := BuildingCategory(buildings, tickers[i]);
      if category.Some? {
        return category;
      }
    }
    return None;
  }

  /** `_get_material_production_category` with its two loops. */
  method GetMaterialProductionCategory(recipes: seq<Recipe>, buildings: map<string, Building>, t: string)
    returns (c: Option<string>)
    ensures c == MaterialCategory(recipes, buildings, t)
  {
    var ps := CollectProducers(recipes, t);
    if ps == [] {
      return None;
    }
    c := FindCategory(ps, buildings);
  }
}
