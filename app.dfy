/** The pure parts of `src/App.tsx` around the planner: the percentage
    multipliers, the item list, the producer lookup of the target picker,
    and the target rate the `plan` memo hands to `buildPlan`. */
module App {
  import opened Wrappers
  import opened OrderedMap
  import opened Types
  import opened Loop
  import opened Planner
  import opened SpeedProps

  // ----- pctToMult -----

  /** A JavaScript number as far as `Number.isFinite` is concerned: NaN
      and the infinities are `NonFinite`. */
  datatype Number = Finite(value: real) | NonFinite

  /** `pctToMult(p) = 1 + (Number.isFinite(p) ? p : 0) / 100`: a bonus
      percentage as a multiplier, a non-finite entry counting as 0 %. */
  function PctToMult(p: Number): (m: real)
    ensures m == 1.0 <==> p.NonFinite? || p.value == 0.0
    ensures m > 0.0 <==> p.NonFinite? || p.value > -100.0
    ensures m == 0.0 <==> p == Finite(-100.0)
  {
    1.0 + (if p.Finite? then p.value else 0.0) / 100.0
  }

  /** The percentage that yields multiplier `m`. */
  function MultToPct(m: real): real {
    (m - 1.0) * 100.0
  }

  /** Every multiplier comes from exactly one finite percentage. */
  lemma PctToMultRoundTrip(p: real, m: real)
    ensures PctToMult(Finite(MultToPct(m))) == m
    ensures MultToPct(PctToMult(Finite(p))) == p
  {
  }

  /** A larger finite percentage gives a larger multiplier. */
  lemma PctToMultMonotone(p: real, q: real)
    ensures p < q <==> PctToMult(Finite(p)) < PctToMult(Finite(q))
  {
  }

  // ----- items -----

  /** The item names listed in `ios`. */
  function ItemsOf(ios: seq<IO>): (s: set<string>)
    ensures forall x :: x in s <==> exists i :: 0 <= i < |ios| && ios[i].item == x
    decreases |ios|
  {
    if ios == [] then {}
    else
      var n := |ios| - 1;
      assert forall i :: 0 <= i < n ==> ios[..n][i] == ios[i];
      ItemsOf(ios[..n]) + {ios[n].item}
  }

  /** The recipe names `x` among its inputs or its outputs. */
  predicate Mentions(r: Recipe, x: string) {
    (exists i :: 0 <= i < |r.inputs| && r.inputs[i].item == x)
    || (exists i :: 0 <= i < |r.outputs| && r.outputs[i].item == x)
  }

  /** The set the `items` memo fills, recipe by recipe. */
  function CatalogItems(recipes: seq<Recipe>): set<string>
    decreases |recipes|
  {
    if recipes == [] then {}
    else
      var r := recipes[|recipes| - 1];
      CatalogItems(recipes[..|recipes| - 1]) + ItemsOf(r.inputs) + ItemsOf(r.outputs)
  }

  lemma MentionsItems(r: Recipe, x: string)
    ensures x in ItemsOf(r.inputs) + ItemsOf(r.outputs) <==> Mentions(r, x)
  {
  }

  /** Some recipe of the catalog mentions `x`. */
  ghost predicate MentionedIn(recipes: seq<Recipe>, x: string) {
    exists i :: 0 <= i < |recipes| && Mentions(recipes[i], x)
  }

  lemma MentionedInSnoc(recipes: seq<Recipe>, x: string)
    requires recipes != []
    ensures MentionedIn(recipes, x)
        <==> MentionedIn(recipes[..|recipes| - 1], x) || Mentions(recipes[|recipes| - 1], x)
  {
    var n := |recipes| - 1;
    if MentionedIn(recipes, x) {
      var i :| 0 <= i < |recipes| && Mentions(recipes[i], x);
      if i < n {
        assert recipes[..n][i] == recipes[i];
      }
    }
    if MentionedIn(recipes[..n], x) {
      var i :| 0 <= i < n && Mentions(recipes[..n][i], x);
      assert recipes[..n][i] == recipes[i];
    }
  }

  /** The item set holds exactly the names some recipe mentions. */
  lemma {:induction false} CatalogItemsMentions(recipes: seq<Recipe>, x: string)
    ensures x in CatalogItems(recipes) <==> MentionedIn(recipes, x)
    decreases |recipes|
  {
    if recipes != [] {
      var n := |recipes| - 1;
      CatalogItemsMentions(recipes[..n], x);
      MentionedInSnoc(recipes, x);
      MentionsItems(recipes[n], x);
    }
  }

  /** `ios.forEach(i => s.add(i.item))` */
  method AddItems(s0: set<string>, ios: seq<IO>) returns (s: set<string>)
    ensures s == s0 + ItemsOf(ios)
  {
    s := s0;
    for j := 0 to |ios|
      invariant s == s0 + ItemsOf(ios[..j])
    {
      s := s + {ios[j].item};
      assert ios[..j + 1][..j] == ios[..j];
    }
    assert ios[..|ios|] == ios;
  }

  /** The `items` memo: every item named by some recipe's inputs or
      outputs, and nothing else. */
  method CollectItems(recipes: seq<Recipe>) returns (s: set<string>)
    ensures s == CatalogItems(recipes)
    ensures forall x :: x in s <==> MentionedIn(recipes, x)
  {
    s := {};
    for i := 0 to |recipes|
      invariant s == CatalogItems(recipes[..i])
    {
      var r := recipes[i];
      s := AddItems(s, r.inputs);
      s := AddItems(s, r.outputs);
      assert recipes[..i + 1][..i] == recipes[..i];
    }
    assert recipes[..|recipes|] == recipes;
    forall x ensures x in s <==> MentionedIn(recipes, x) {
      CatalogItemsMentions(recipes, x);
    }
  }

  // ----- recipesByOutputItem -----

  /** The `recipesByOutputItem` memo: the same nested loops as the
      planner's `prodIndex`, so each item maps to its producers in catalog
      order and an item nobody outputs has no entry. */
  method RecipesByOutputItem(recipes: seq<Recipe>) returns (m: Index)
    ensures m == ProducerIndex(recipes)
    ensures forall k :: Get(m, k) == AsEntry(Producers(recipes, k))
  {
    m := BuildProducerIndex(recipes);
    forall k ensures Get(m, k) == AsEntry(Producers(recipes, k)) {
      ProducerIndexLookup(recipes, k);
    }
  }

  // ----- the target rate of the plan memo -----

  /** The target input: a rate in units per minute, or a number of devices. */
  datatype Mode = Rate | Devices

  /** Every recipe takes a nonzero time to craft. */
  predicate CraftingTimesNonZero(recipes: seq<Recipe>) {
    forall r :: r in recipes ==> r.craftingS != 0.0
  }

  /** `(60 / r.crafting_s) * factorySpeed`: runs per minute of one device. */
  function DeviceRunsPerMin(r: Recipe, factorySpeed: real): real
    requires r.craftingS != 0.0
  {
    (60.0 / r.craftingS) * factorySpeed
  }

  /** The recipe the devices mode sizes: the pinned producer of the target
      if the pin names one, otherwise the first producer. */
  function TargetRecipe(recipes: seq<Recipe>, choice: Assoc<string>, targetItem: string): (r: Recipe)
    requires Producers(recipes, targetItem) != []
    ensures r in recipes && Outputs(r, targetItem)
  {
    ChooseRecipe(Producers(recipes, targetItem), Get(choice, targetItem))
  }

  /** `targetValue * runsPerMinPerDevice * outAmt`: the output per minute
      of `targetValue` devices running `r`, where `outAmt` is the amount of
      the first output entry naming the target. */
  function DevicesRate(targetValue: real, r: Recipe, factorySpeed: real, targetItem: string): real
    requires r.craftingS != 0.0 && Outputs(r, targetItem)
  {
    targetValue * DeviceRunsPerMin(r, factorySpeed) * OutputAmountFor(targetItem, r).value
  }

  /** `targetPerMin` in the `plan` memo; `None` where the memo returns
      `null` before calling `buildPlan`. */
  function TargetRate(targetItem: string, targetValue: real, mode: Mode, recipes: seq<Recipe>,
                      choice: Assoc<string>, factoryPct: Number): (t: Option<real>)
    requires mode.Devices? ==> CraftingTimesNonZero(recipes)
    ensures t.None? <==> targetItem == "" || recipes == [] || (mode.Devices? && Producers(recipes, targetItem) == [])
    ensures t.Some? && mode.Rate? ==> t.value == targetValue
    ensures t.Some? && mode.Devices? ==>
      t.value == DevicesRate(targetValue, TargetRecipe(recipes, choice, targetItem), PctToMult(factoryPct), targetItem)
  {
    if targetItem == "" || |recipes| == 0 then None
    else if mode.Rate? then Some(targetValue)
    else
      ProducerIndexLookup(recipes, targetItem);
      var options := GetOr(ProducerIndex(recipes), targetItem, []);
      if |options| == 0 then None
      else
        var r := ChooseRecipe(options, Get(choice, targetItem));
        assert r == TargetRecipe(recipes, choice, targetItem);
        Some(DevicesRate(targetValue, r, PctToMult(factoryPct), targetItem))
  }

  /** The arithmetic of the devices mode: the rate `tv * d * outAmt`
      divided back by `outAmt` is `tv * d` runs, and those runs at `cs`
      seconds each and speed `speed` keep `tv` devices busy. */
  lemma DeviceCount(tv: real, cs: real, speed: real, outAmt: real, d: real, t: real, runs: real, m: real)
    requires cs != 0.0 && speed != 0.0 && outAmt != 0.0
    requires d == (60.0 / cs) * speed && t == tv * d * outAmt
    requires runs == t / outAmt && m == runs * cs / 60.0 / speed
    ensures runs == tv * d && m == tv
  {
    assert runs * outAmt == (tv * d) * outAmt;
    assert runs == tv * d;
    var x := runs * cs / 60.0;
    assert m * speed == x;
    assert x * 60.0 == runs * cs;
    assert (60.0 / cs) * cs == 60.0;
    assert runs * cs == tv * speed * ((60.0 / cs) * cs);
    assert m * speed * 60.0 == tv * speed * 60.0;
  }

  /** The devices-mode rate converted back the way `buildPlan` sizes
      machines: `targetValue` devices' worth of runs per minute, and
      `targetValue` devices again. */
  lemma DevicesRateRoundTrip(targetValue: real, r: Recipe, factorySpeed: real, targetItem: string, t: real)
    requires r.craftingS != 0.0 && Outputs(r, targetItem) && factorySpeed != 0.0
    requires OutputAmountFor(targetItem, r).value != 0.0
    requires t == DevicesRate(targetValue, r, factorySpeed, targetItem)
    ensures var runs := RunsFor(t, OutputAmountFor(targetItem, r).value);
      runs == Times(targetValue)(DeviceRunsPerMin(r, factorySpeed))
      && MachinesFor(runs, r, factorySpeed) == targetValue
  {
    var outAmt := OutputAmountFor(targetItem, r).value;
    DeviceCount(targetValue, r.craftingS, factorySpeed, outAmt, DeviceRunsPerMin(r, factorySpeed), t,
                RunsFor(t, outAmt), MachinesFor(RunsFor(t, outAmt), r, factorySpeed));
  }

  // ----- the plan memo -----

  /** The configuration the memo passes: the three percentages as
      multipliers and the pins. */
  function MemoConfig(factoryPct: Number, fuelPct: Number, fertPct: Number, choice: Assoc<string>): PlannerConfig {
    PlannerConfig(PctToMult(factoryPct), PctToMult(fuelPct), PctToMult(fertPct), Some(choice))
  }

  /** The `plan` memo: `null` (`None`) without a target rate, otherwise
      `buildPlan` at that rate. */
  method PlanMemo(targetItem: string, targetValue: real, mode: Mode, recipes: seq<Recipe>,
                  choice: Assoc<string>, factoryPct: Number, fuelPct: Number, fertPct: Number)
    returns (plan: Option<PlanResult>)
    requires mode.Devices? ==> CraftingTimesNonZero(recipes)
    requires OutputsNonZero(recipes) && PctToMult(factoryPct) != 0.0
    ensures plan.None? <==> targetItem == "" || recipes == [] || (mode.Devices? && Producers(recipes, targetItem) == [])
    ensures plan.Some? ==>
      plan.value == Plan(targetItem, TargetRate(targetItem, targetValue, mode, recipes, choice, factoryPct).value,
                         recipes, MemoConfig(factoryPct, fuelPct, fertPct, choice))
  {
    var t := TargetRate(targetItem, targetValue, mode, recipes, choice, factoryPct);
    if t.None? {
      return None;
    }
    var res := BuildPlan(targetItem, t.value, recipes, MemoConfig(factoryPct, fuelPct, fertPct, choice));
    return Some(res);
  }

  /** The fuel and nutrient percentages do not change the plan. */
  lemma MemoIgnoresFuelAndNutrient(targetItem: string, rate: real, recipes: seq<Recipe>, choice: Assoc<string>,
                                   factoryPct: Number, fuelPct1: Number, fertPct1: Number, fuelPct2: Number, fertPct2: Number)
    requires OutputsNonZero(recipes) && PctToMult(factoryPct) != 0.0
    ensures Plan(targetItem, rate, recipes, MemoConfig(factoryPct, fuelPct1, fertPct1, choice))
         == Plan(targetItem, rate, recipes, MemoConfig(factoryPct, fuelPct2, fertPct2, choice))
  {
    PlanIgnoresOtherMultipliers(targetItem, rate, recipes,
      MemoConfig(factoryPct, fuelPct2, fertPct2, choice), MemoConfig(factoryPct, fuelPct1, fertPct1, choice));
  }

  /** The first turn of `buildPlan` from a lone positive demand for an
      item that has producers expands that item with its pinned-or-first
      producer at `need / outAmt` runs per minute. */
  lemma FirstTurn(item: string, t: real, recipes: seq<Recipe>, cfg: PlannerConfig)
    requires OutputsNonZero(recipes) && cfg.factorySpeedMult != 0.0
    requires item != "" && t > Eps && Producers(recipes, item) != []
    ensures var r := ChooseRecipe(Producers(recipes, item), PinFor(cfg, item));
      OutputAmountFor(item, r).Ok? && OutputAmountFor(item, r).value != 0.0
      && Body(ProducerIndex(recipes), cfg)(InitialState(item, t))
         == Some(Expand(InitialState(item, t), r, RunsFor(t, OutputAmountFor(item, r).value), cfg.factorySpeedMult))
  {
    var idx := ProducerIndex(recipes);
    var s := InitialState(item, t);
    ProducerIndexSound(recipes);
    ProducerIndexLookup(recipes, item);
    assert Body(idx, cfg)(s) == Step(s, idx, cfg);
    assert Expandable(s.demand[0], idx);
    assert FirstExpandable(s.demand, idx) == Some(item);
  }

  /** What that first turn books: one device entry and one run entry for
      the recipe. */
  lemma FirstTurnBooks(item: string, t: real, recipes: seq<Recipe>, cfg: PlannerConfig)
    requires OutputsNonZero(recipes) && cfg.factorySpeedMult != 0.0
    requires item != "" && t > Eps && Producers(recipes, item) != []
    ensures var r := ChooseRecipe(Producers(recipes, item), PinFor(cfg, item));
      var next := Body(ProducerIndex(recipes), cfg)(InitialState(item, t));
      OutputAmountFor(item, r).Ok? && OutputAmountFor(item, r).value != 0.0 && next.Some?
      && next.value.machines == [(r.device, MachinesFor(RunsFor(t, OutputAmountFor(item, r).value), r, cfg.factorySpeedMult))]
      && next.value.recipeRuns == [(r.slug, RunsFor(t, OutputAmountFor(item, r).value))]
  {
    var r := ChooseRecipe(Producers(recipes, item), PinFor(cfg, item));
    FirstTurn(item, t, recipes, cfg);
    ExpandFromEmpty(InitialState(item, t), r, RunsFor(t, OutputAmountFor(item, r).value), cfg.factorySpeedMult);
  }

  /** An expansion of a state with no machines and no runs yet books one
      entry in each. */
  lemma ExpandFromEmpty(s: PlanState, r: Recipe, runs: real, factorySpeed: real)
    requires factorySpeed != 0.0 && s.machines == [] && s.recipeRuns == []
    ensures Expand(s, r, runs, factorySpeed).machines == [(r.device, MachinesFor(runs, r, factorySpeed))]
    ensures Expand(s, r, runs, factorySpeed).recipeRuns == [(r.slug, runs)]
  {
  }

  /** End to end in devices mode: the first expansion `buildPlan` makes
      is the target itself, with the recipe the memo sized, and it books
      exactly `targetValue` devices of that recipe's kind and
      `targetValue` times one device's runs per minute. */
  lemma DevicesModeFirstExpansion(targetItem: string, targetValue: real, recipes: seq<Recipe>, choice: Assoc<string>,
                                  factoryPct: Number, fuelPct: Number, fertPct: Number)
    requires CraftingTimesNonZero(recipes) && OutputsNonZero(recipes) && PctToMult(factoryPct) != 0.0
    requires TargetRate(targetItem, targetValue, Devices, recipes, choice, factoryPct).Some?
    requires TargetRate(targetItem, targetValue, Devices, recipes, choice, factoryPct).value > Eps
    ensures var t := TargetRate(targetItem, targetValue, Devices, recipes, choice, factoryPct).value;
      var next := Body(ProducerIndex(recipes), MemoConfig(factoryPct, fuelPct, fertPct, choice))(InitialState(targetItem, t));
      var r := TargetRecipe(recipes, choice, targetItem);
      next.Some?
      && next.value.machines == [(r.device, targetValue)]
      && next.value.recipeRuns == [(r.slug, Times(targetValue)(DeviceRunsPerMin(r, PctToMult(factoryPct))))]
  {
    var t := TargetRate(targetItem, targetValue, Devices, recipes, choice, factoryPct).value;
    var cfg := MemoConfig(factoryPct, fuelPct, fertPct, choice);
    var r := TargetRecipe(recipes, choice, targetItem);
    var speed := PctToMult(factoryPct);
    var runs := RunsFor(t, OutputAmountFor(targetItem, r).value);
    assert PinFor(cfg, targetItem) == Get(choice, targetItem);
    FirstTurnBooks(targetItem, t, recipes, cfg);
    DevicesRateRoundTrip(targetValue, r, speed, targetItem, t);
  }
}
