/** What one pass of the loop body of `buildPlan` does to the three maps. */
module ExpansionProps {
  import opened Wrappers
  import opened OrderedMap
  import opened Types
  import opened Planner
  import opened LedgerProps

  /** After an expansion with recipe `r` at `runs` runs per minute, every
      item's demand is its old demand, less what `r` makes of it per
      minute, plus what `r` consumes of it per minute (`FlowTotal` at
      factor `runs` is `runs` times the listed amounts, by
      `FlowTotalScale`); an item whose net is below 1e-12 in magnitude has
      no entry at all. */
  lemma ExpandDemand(s: PlanState, r: Recipe, runs: real, factorySpeed: real, k: string)
    requires factorySpeed != 0.0 && KeysUnique(s.demand)
    ensures Get(Expand(s, r, runs, factorySpeed).demand, k)
         == Settled(GetOr(s.demand, k, 0.0) + FlowTotal(r.outputs, k, -runs) + FlowTotal(r.inputs, k, runs))
  {
    RecipeNet(s.demand, r.outputs, r.inputs, runs, k);
  }

  /** An expansion adds `runs` to the recipe's run count and the machine
      count to its device; every other key keeps its figure, and a slug or
      device seen for the first time is appended last. */
  lemma ExpandCounts(s: PlanState, r: Recipe, runs: real, factorySpeed: real, k: string)
    requires factorySpeed != 0.0
    ensures GetOr(Expand(s, r, runs, factorySpeed).recipeRuns, k, 0.0)
         == GetOr(s.recipeRuns, k, 0.0) + (if k == r.slug then runs else 0.0)
    ensures GetOr(Expand(s, r, runs, factorySpeed).machines, k, 0.0)
         == GetOr(s.machines, k, 0.0) + (if k == r.device then MachinesFor(runs, r, factorySpeed) else 0.0)
    ensures Keys(Expand(s, r, runs, factorySpeed).recipeRuns)
         == if Has(s.recipeRuns, r.slug) then Keys(s.recipeRuns) else Keys(s.recipeRuns) + [r.slug]
    ensures Keys(Expand(s, r, runs, factorySpeed).machines)
         == if Has(s.machines, r.device) then Keys(s.machines) else Keys(s.machines) + [r.device]
  {
    AddGet(s.recipeRuns, r.slug, runs);
    AddGet(s.machines, r.device, MachinesFor(runs, r, factorySpeed));
    AddKeys(s.recipeRuns, r.slug, runs);
    AddKeys(s.machines, r.device, MachinesFor(runs, r, factorySpeed));
  }

  lemma RunsCancel(need: real, outAmt: real, runs: real, total: real, flow: real)
    requires outAmt != 0.0 && runs == need / outAmt && total == outAmt && flow == -runs * total
    ensures need + flow == 0.0
  {
  }

  /** Running a recipe at `need / outAmt` runs per minute makes `need` per
      minute of an item it lists for `outAmt` in total. */
  lemma OutputsMeetNeed(outs: seq<IO>, item: string, need: real, outAmt: real, runs: real)
    requires outAmt != 0.0 && runs == need / outAmt && Total(outs, item) == outAmt
    ensures need + FlowTotal(outs, item, -runs) == 0.0
  {
    FlowTotalScale(outs, -runs, item);
    RunsCancel(need, outAmt, runs, Total(outs, item), FlowTotal(outs, item, -runs));
  }

  /** An item a recipe does not list has no flow through it. */
  lemma NoFlow(ios: seq<IO>, item: string, runs: real)
    requires Total(ios, item) == 0.0
    ensures FlowTotal(ios, item, runs) == 0.0
  {
    FlowTotalScale(ios, runs, item);
  }

  /** Expanding the picked item meets its demand exactly: when the chosen
      recipe lists the item once among its outputs, what is left of it is
      only what the recipe itself consumes of it per minute, and nothing
      when it consumes none. */
  lemma ExpansionMeetsNeed(s: PlanState, item: string, idx: Index, cfg: PlannerConfig)
    requires Has(s.demand, item) && Has(idx, item) && IndexSound(idx) && cfg.factorySpeedMult != 0.0
    requires KeysUnique(s.demand)
    ensures var r := SelectedRecipe(idx, cfg, item);
      Total(r.outputs, item) == OutputAmountFor(item, r).value ==>
        Get(Expansion(s, item, idx, cfg).demand, item) == Settled(FlowTotal(r.inputs, item, RunsPerMin(s, idx, cfg, item)))
    ensures var r := SelectedRecipe(idx, cfg, item);
      Total(r.outputs, item) == OutputAmountFor(item, r).value && Total(r.inputs, item) == 0.0 ==>
        !Has(Expansion(s, item, idx, cfg).demand, item)
  {
    var r := SelectedRecipe(idx, cfg, item);
    var runs := RunsPerMin(s, idx, cfg, item);
    var outAmt := OutputAmountFor(item, r).value;
    var need := Get(s.demand, item).value;
    assert r in Get(idx, item).value;
    ExpandDemand(s, r, runs, cfg.factorySpeedMult, item);
    if Total(r.outputs, item) == outAmt {
      assert runs == need / outAmt;
      OutputsMeetNeed(r.outputs, item, need, outAmt, runs);
      if Total(r.inputs, item) == 0.0 {
        NoFlow(r.inputs, item, runs);
      }
    }
  }

  /** An expansion keeps the demand map free of repeated keys. */
  lemma ExpandKeepsUnique(s: PlanState, r: Recipe, runs: real, factorySpeed: real)
    requires factorySpeed != 0.0 && KeysUnique(s.demand)
    ensures KeysUnique(Expand(s, r, runs, factorySpeed).demand)
  {
    var m1 := ApplyFlows(s.demand, r.outputs, -runs);
    ApplyFlowsKeepsUnique(s.demand, r.outputs, -runs);
    ApplyFlowsKeepsUnique(m1, r.inputs, runs);
    PruneKeepsUnique(ApplyFlows(m1, r.inputs, runs));
  }
}
