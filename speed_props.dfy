/** The factory speed multiplier only divides the machine counts: the
    demand, the recipe runs and the outcome of `buildPlan` do not depend on
    it, and the other two multipliers are never read. */
module SpeedProps {
  import opened Wrappers
  import opened OrderedMap
  import opened Types
  import opened Loop
  import opened Planner

  /** Multiplication by `c`, as a value. */
  function Times(c: real): real -> real {
    v => c * v
  }

  lemma TimesAdd(c: real, x: real, v: real, y: real, w: real)
    requires y == Times(c)(x) && w == Times(c)(v)
    ensures Times(c)(x + v) == y + w
  {
  }

  /** `b` has the keys of `a`, in the same order, and each of its figures
      is what `g` makes of the figure of `a`. */
  ghost predicate ScaledBy(a: Ledger, b: Ledger, g: real -> real) {
    Keys(b) == Keys(a) && forall k :: GetOr(b, k, 0.0) == g(GetOr(a, k, 0.0))
  }

  /** Adding `v` to `a` and `w` to its image under `g` keeps them related
      when `g` maps the new figure of `a` to the new figure of `b`. */
  lemma AddScaled(a: Ledger, b: Ledger, g: real -> real, k: string, v: real, w: real)
    requires ScaledBy(a, b, g) && g(GetOr(a, k, 0.0) + v) == GetOr(b, k, 0.0) + w
    ensures ScaledBy(Add(a, k, v), Add(b, k, w), g)
  {
    HasKeys(a, k);
    HasKeys(b, k);
    AddKeys(a, k, v);
    AddKeys(b, k, w);
    forall k' ensures GetOr(Add(b, k, w), k', 0.0) == g(GetOr(Add(a, k, v), k', 0.0)) {
      var x := GetOr(a, k', 0.0);
      var y := GetOr(b, k', 0.0);
      if k' == k {
        assert GetOr(Add(a, k, v), k', 0.0) == x + v by { AddGet(a, k, v); }
        assert GetOr(Add(b, k, w), k', 0.0) == y + w by { AddGet(b, k, w); }
      } else {
        assert GetOr(Add(a, k, v), k', 0.0) == x by { AddGet(a, k, v); }
        assert GetOr(Add(b, k, w), k', 0.0) == y by { AddGet(b, k, w); }
      }
    }
  }

  /** `runs * crafting_s / 60 / speed` at speed `f2` is `f1 / f2` times the
      figure at speed `f1`. */
  lemma MachinesScale(runs: real, r: Recipe, f1: real, f2: real)
    requires f1 != 0.0 && f2 != 0.0
    ensures MachinesFor(runs, r, f2) == Times(f1 / f2)(MachinesFor(runs, r, f1))
  {
    var x := runs * r.craftingS / 60.0;
    var q := x / f1;
    var p := f1 / f2;
    assert f1 * q == x;
    assert f2 * p == f1;
    assert f2 * (p * q) == (f2 * p) * q;
    assert f2 * (p * q) == x;
  }

  // ----- the loop under two speed multipliers -----

  /** Two loop states that differ only in the machine counts, the second
      being the first scaled by `c`. */
  ghost predicate Scaled(a: PlanState, b: PlanState, c: real) {
    a.demand == b.demand && a.recipeRuns == b.recipeRuns && ScaledBy(a.machines, b.machines, Times(c))
  }

  /** The same recipe at the same rate under speeds `f1` and `f2` keeps
      two states related by `f1 / f2`. */
  lemma ExpandScaled(a: PlanState, b: PlanState, r: Recipe, runs: real, f1: real, f2: real)
    requires f1 != 0.0 && f2 != 0.0 && Scaled(a, b, f1 / f2)
    ensures Scaled(Expand(a, r, runs, f1), Expand(b, r, runs, f2), f1 / f2)
  {
    var c := f1 / f2;
    var m1 := MachinesFor(runs, r, f1);
    var m2 := MachinesFor(runs, r, f2);
    MachinesScale(runs, r, f1, f2);
    TimesAdd(c, GetOr(a.machines, r.device, 0.0), m1, GetOr(b.machines, r.device, 0.0), m2);
    AddScaled(a.machines, b.machines, Times(c), r.device, m1, m2);
  }

  /** One turn of the loop under two configurations that differ only in
      the multipliers: both break or both expand the same item with the
      same recipe at the same rate. */
  lemma BodyScaled(idx: Index, cfg1: PlannerConfig, cfg2: PlannerConfig, a: PlanState, b: PlanState)
    requires cfg1.factorySpeedMult != 0.0 && cfg2.factorySpeedMult != 0.0
    requires cfg1.recipeChoice == cfg2.recipeChoice
    requires Scaled(a, b, cfg1.factorySpeedMult / cfg2.factorySpeedMult)
    ensures Body(idx, cfg1)(a).None? == Body(idx, cfg2)(b).None?
    ensures Body(idx, cfg1)(a).Some? ==>
      Scaled(Body(idx, cfg1)(a).value, Body(idx, cfg2)(b).value, cfg1.factorySpeedMult / cfg2.factorySpeedMult)
  {
    if IndexSound(idx) {
      assert Body(idx, cfg1)(a) == Step(a, idx, cfg1);
      assert Body(idx, cfg2)(b) == Step(b, idx, cfg2);
      var pick := FirstExpandable(a.demand, idx);
      if Truthy(pick) {
        var item := pick.value;
        assert PinFor(cfg1, item) == PinFor(cfg2, item);
        var r := SelectedRecipe(idx, cfg1, item);
        var runs := RunsPerMin(a, idx, cfg1, item);
        assert RunsPerMin(b, idx, cfg2, item) == runs;
        ExpandScaled(a, b, r, runs, cfg1.factorySpeedMult, cfg2.factorySpeedMult);
      }
    }
  }

  /** The factory speed multiplier only divides the machine counts: under
      speeds `f1` and `f2` (and the same recipe pins) `buildPlan` reports
      the same outcome, the same demand and the same recipe runs, and the
      machine counts at `f2` are those at `f1` times `f1 / f2`, for the
      same devices in the same order. */
  lemma PlanSpeedScaling(targetItem: string, targetPerMin: real, recipes: seq<Recipe>, cfg1: PlannerConfig, cfg2: PlannerConfig)
    requires OutputsNonZero(recipes) && cfg1.factorySpeedMult != 0.0 && cfg2.factorySpeedMult != 0.0
    requires cfg1.recipeChoice == cfg2.recipeChoice
    ensures var p1 := Plan(targetItem, targetPerMin, recipes, cfg1);
      var p2 := Plan(targetItem, targetPerMin, recipes, cfg2);
      p2 == p1.(machines := p2.machines)
      && ScaledBy(p1.machines, p2.machines, Times(cfg1.factorySpeedMult / cfg2.factorySpeedMult))
  {
    var idx := ProducerIndex(recipes);
    var c := cfg1.factorySpeedMult / cfg2.factorySpeedMult;
    var init := InitialState(targetItem, targetPerMin);
    var rel := (a: PlanState, b: PlanState) => Scaled(a, b, c);
    forall a, b | rel(a, b)
      ensures Body(idx, cfg1)(a).None? == Body(idx, cfg2)(b).None?
      ensures Body(idx, cfg1)(a).Some? ==> rel(Body(idx, cfg1)(a).value, Body(idx, cfg2)(b).value)
    {
      BodyScaled(idx, cfg1, cfg2, a, b);
    }
    assert rel(init, init);
    RunSimulation(Body(idx, cfg1), Body(idx, cfg2), rel, init, init, 0, MaxSteps);
  }

  /** One turn of the loop reads only the speed multiplier and the pins
      of the configuration. */
  lemma BodySame(idx: Index, cfg1: PlannerConfig, cfg2: PlannerConfig, s: PlanState)
    requires cfg1.factorySpeedMult == cfg2.factorySpeedMult && cfg1.recipeChoice == cfg2.recipeChoice
    ensures Body(idx, cfg1)(s) == Body(idx, cfg2)(s)
  {
    if IndexSound(idx) && cfg1.factorySpeedMult != 0.0 {
      assert Body(idx, cfg1)(s) == Step(s, idx, cfg1);
      assert Body(idx, cfg2)(s) == Step(s, idx, cfg2);
      var pick := FirstExpandable(s.demand, idx);
      if Truthy(pick) {
        assert PinFor(cfg1, pick.value) == PinFor(cfg2, pick.value);
      }
    }
  }

  /** The fuel and nutrient multipliers are never read: two configurations
      that agree on the speed multiplier and the pins give the same plan. */
  lemma PlanIgnoresOtherMultipliers(targetItem: string, targetPerMin: real, recipes: seq<Recipe>, cfg1: PlannerConfig, cfg2: PlannerConfig)
    requires OutputsNonZero(recipes) && cfg1.factorySpeedMult != 0.0
    requires cfg1.factorySpeedMult == cfg2.factorySpeedMult && cfg1.recipeChoice == cfg2.recipeChoice
    ensures Plan(targetItem, targetPerMin, recipes, cfg2) == Plan(targetItem, targetPerMin, recipes, cfg1)
  {
    var idx := ProducerIndex(recipes);
    var init := InitialState(targetItem, targetPerMin);
    var rel := (a: PlanState, b: PlanState) => a == b;
    forall a, b | rel(a, b)
      ensures Body(idx, cfg1)(a).None? == Body(idx, cfg2)(b).None?
      ensures Body(idx, cfg1)(a).Some? ==> rel(Body(idx, cfg1)(a).value, Body(idx, cfg2)(b).value)
    {
      BodySame(idx, cfg1, cfg2, a);
    }
    RunSimulation(Body(idx, cfg1), Body(idx, cfg2), rel, init, init, 0, MaxSteps);
  }
}
