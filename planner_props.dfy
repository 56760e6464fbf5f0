/** Properties of `buildPlan` as a whole: what the loop computes, when it
    reports success, and what a single expansion does to the ledgers. */
module PlannerProps {
  import opened Wrappers
  import opened OrderedMap
  import opened Types
  import opened Loop
  import opened Planner
  import opened ExpansionProps

  // ----- the result tag -----

  /** `buildPlan` performs at most `MAX_STEPS` expansions and returns the
      maps the last of them leaves; it reports success exactly when it
      stopped after fewer than `MAX_STEPS - 1` expansions, and a failure
      carries the budget message. On success nothing truthy is left to
      expand. */
  lemma PlanOutcome(targetItem: string, targetPerMin: real, recipes: seq<Recipe>, cfg: PlannerConfig)
    requires OutputsNonZero(recipes) && cfg.factorySpeedMult != 0.0
    ensures var res := Plan(targetItem, targetPerMin, recipes, cfg);
      exists e: nat :: e <= MaxSteps
        && Iterate(Body(ProducerIndex(recipes), cfg), InitialState(targetItem, targetPerMin), e)
           == Some(PlanState(res.demand, res.machines, res.recipeRuns))
        && (res.Success? <==> e < MaxSteps - 1)
    ensures Plan(targetItem, targetPerMin, recipes, cfg).Success?
            ==> !Truthy(FirstExpandable(Plan(targetItem, targetPerMin, recipes, cfg).demand, ProducerIndex(recipes)))
    ensures Plan(targetItem, targetPerMin, recipes, cfg).Failure? ==> Plan(targetItem, targetPerMin, recipes, cfg).error == MaxStepsError
  {
    var idx := ProducerIndex(recipes);
    ProducerIndexSound(recipes);
    var body := Body(idx, cfg);
    var init := InitialState(targetItem, targetPerMin);
    RunOutcome(body, init, MaxSteps);
    var r := Run(body, init, 0, MaxSteps);
    if r.1 <= MaxSteps {
      assert body(r.0) == Step(r.0, idx, cfg);
    }
  }

  /** A state with nothing truthy to expand, reached after `k <= MAX_STEPS`
      expansions, is the plan, and it is reported as success exactly when
      `k < MAX_STEPS - 1`. */
  lemma OkIffEarlyFixpoint(targetItem: string, targetPerMin: real, recipes: seq<Recipe>, cfg: PlannerConfig, k: nat, t: PlanState)
    requires OutputsNonZero(recipes) && cfg.factorySpeedMult != 0.0 && k <= MaxSteps
    requires Iterate(Body(ProducerIndex(recipes), cfg), InitialState(targetItem, targetPerMin), k) == Some(t)
    requires !Truthy(FirstExpandable(t.demand, ProducerIndex(recipes)))
    ensures var res := Plan(targetItem, targetPerMin, recipes, cfg);
      PlanState(res.demand, res.machines, res.recipeRuns) == t && (res.Success? <==> k < MaxSteps - 1)
  {
    var idx := ProducerIndex(recipes);
    ProducerIndexSound(recipes);
    assert Body(idx, cfg)(t) == Step(t, idx, cfg);
    RunFixpoint(Body(idx, cfg), InitialState(targetItem, targetPerMin), 0, MaxSteps, k, t);
  }

  /** The boundary of the step counter: a state with nothing truthy left,
      reached by the 24999th expansion, is still reported as "Max steps
      reached". */
  lemma LastStepFixpointFails(targetItem: string, targetPerMin: real, recipes: seq<Recipe>, cfg: PlannerConfig, t: PlanState)
    requires OutputsNonZero(recipes) && cfg.factorySpeedMult != 0.0
    requires Iterate(Body(ProducerIndex(recipes), cfg), InitialState(targetItem, targetPerMin), MaxSteps - 1) == Some(t)
    requires !Truthy(FirstExpandable(t.demand, ProducerIndex(recipes)))
    ensures Plan(targetItem, targetPerMin, recipes, cfg) == Failure(MaxStepsError, t.demand, t.machines, t.recipeRuns)
  {
    OkIffEarlyFixpoint(targetItem, targetPerMin, recipes, cfg, MaxSteps - 1, t);
  }

  // ----- what the loop keeps -----

  /** No entry is below 1e-12 in magnitude. */
  predicate NoTiny(d: Ledger) {
    forall i :: 0 <= i < |d| ==> !Tiny(d[i])
  }

  /** One turn of the body, when it does not break, is the expansion of
      the first truthy expandable item. */
  lemma BodyTurn(idx: Index, cfg: PlannerConfig, s: PlanState)
    requires Body(idx, cfg)(s).Some?
    ensures IndexSound(idx) && cfg.factorySpeedMult != 0.0
    ensures Truthy(FirstExpandable(s.demand, idx)) && Has(s.demand, FirstExpandable(s.demand, idx).value)
    ensures Body(idx, cfg)(s).value == Expansion(s, FirstExpandable(s.demand, idx).value, idx, cfg)
  {
  }

  /** A turn of the body keeps the demand map free of repeated keys. */
  lemma BodyKeepsUnique(idx: Index, cfg: PlannerConfig, s: PlanState)
    requires KeysUnique(s.demand) && Body(idx, cfg)(s).Some?
    ensures KeysUnique(Body(idx, cfg)(s).value.demand)
  {
    BodyTurn(idx, cfg, s);
    var item := FirstExpandable(s.demand, idx).value;
    ExpandKeepsUnique(s, SelectedRecipe(idx, cfg, item), RunsPerMin(s, idx, cfg, item), cfg.factorySpeedMult);
  }

  /** A turn of the body leaves no demand entry below 1e-12 in
      magnitude: the cleanup runs last. */
  lemma BodyClean(idx: Index, cfg: PlannerConfig, s: PlanState)
    requires Body(idx, cfg)(s).Some?
    ensures NoTiny(Body(idx, cfg)(s).value.demand)
  {
    BodyTurn(idx, cfg, s);
  }

  /** The maps `buildPlan` returns: the demand never repeats a key, and it
      is either the untouched starting demand or free of entries below
      1e-12 in magnitude. */
  lemma PlanDemandClean(targetItem: string, targetPerMin: real, recipes: seq<Recipe>, cfg: PlannerConfig)
    requires OutputsNonZero(recipes) && cfg.factorySpeedMult != 0.0
    ensures KeysUnique(Plan(targetItem, targetPerMin, recipes, cfg).demand)
    ensures var d := Plan(targetItem, targetPerMin, recipes, cfg).demand;
      d == [(targetItem, targetPerMin)] || NoTiny(d)
  {
    var idx := ProducerIndex(recipes);
    var init := InitialState(targetItem, targetPerMin);
    var inv := (a: PlanState) => KeysUnique(a.demand) && (a.demand == init.demand || NoTiny(a.demand));
    forall a | inv(a) && Body(idx, cfg)(a).Some? ensures inv(Body(idx, cfg)(a).value) {
      BodyKeepsUnique(idx, cfg, a);
      BodyClean(idx, cfg, a);
    }
    RunInvariant(Body(idx, cfg), inv, init, 0, MaxSteps);
  }
  /** A successful plan whose demand has no empty-named item leaves only
      demands of at most 1e-12 or of items no recipe in the catalog
      outputs. */
  lemma PlanSuccessLeftovers(targetItem: string, targetPerMin: real, recipes: seq<Recipe>, cfg: PlannerConfig)
    requires OutputsNonZero(recipes) && cfg.factorySpeedMult != 0.0
    ensures var res := Plan(targetItem, targetPerMin, recipes, cfg);
      res.Success? && !Has(res.demand, "") ==>
        forall i :: 0 <= i < |res.demand| && res.demand[i].1 > Eps ==> Producers(recipes, res.demand[i].0) == []
  {
    var res := Plan(targetItem, targetPerMin, recipes, cfg);
    var idx := ProducerIndex(recipes);
    PlanOutcome(targetItem, targetPerMin, recipes, cfg);
    if res.Success? && !Has(res.demand, "") {
      forall i | 0 <= i < |res.demand| && res.demand[i].1 > Eps
        ensures Producers(recipes, res.demand[i].0) == []
      {
        assert !Expandable(res.demand[i], idx);
        ProducerIndexLookup(recipes, res.demand[i].0);
      }
    }
  }
}
