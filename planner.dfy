/** `src/lib/planner.ts`: the demand-resolution loop.

    The specification functions (`Expansion`, `Step`, `Plan`) describe
    one expansion and the whole loop; `BuildPlan` is the loop as the source
    writes it, with its inner loops as the methods `AddFlows`, `Cleanup`,
    `PickItemToExpand` and `BuildProducerIndex`, and is proved to compute
    `Plan`. */
module Planner {
  import opened Wrappers
  import opened OrderedMap
  import opened Types
  import opened Loop

  /** `MAX_STEPS` */
  const MaxSteps: nat := 25000
  /** The `1e-12` threshold for "needed" and for pruning. */
  const Eps: real := 0.000000000001
  const MaxStepsError: string := "Max steps reached (Recipe loop / cycle?)"

  /** `prodIndex`: item to the recipes that output it. */
  type Index = Assoc<seq<Recipe>>

  /** The three maps `buildPlan` mutates. */
  datatype PlanState = PlanState(demand: Ledger, machines: Ledger, recipeRuns: Ledger)

  function Abs(x: real): real { if x < 0.0 then -x else x }

  // ----- add -----

  /** `add(map, key, val)`: `map.set(key, (map.get(key) ?? 0) + val)`. */
  function Add(m: Ledger, k: string, v: real): Ledger {
    Set(m, k, GetOr(m, k, 0.0) + v)
  }

  /** After `add` the entry for `key` is its old value (or 0) plus `val`
      and every other key keeps its value. */
  lemma AddGet(m: Ledger, k: string, v: real)
    ensures Get(Add(m, k, v), k) == Some(GetOr(m, k, 0.0) + v)
    ensures forall k' :: k' != k ==> Get(Add(m, k, v), k') == Get(m, k')
  {
    var w := GetOr(m, k, 0.0) + v;
    assert Add(m, k, v) == Set(m, k, w);
    forall k' ensures Get(Set(m, k, w), k') == if k' == k then Some(w) else Get(m, k') {
      GetSet(m, k, w, k');
    }
  }

  /** A key already present keeps its place; a new one is appended. */
  lemma AddKeys(m: Ledger, k: string, v: real)
    ensures Keys(Add(m, k, v)) == if Has(m, k) then Keys(m) else Keys(m) + [k]
  {
    var w := GetOr(m, k, 0.0) + v;
    assert Add(m, k, v) == Set(m, k, w);
    SetKeys(m, k, w);
  }

  lemma AddKeepsUnique(m: Ledger, k: string, v: real)
    requires KeysUnique(m)
    ensures KeysUnique(Add(m, k, v))
  {
    SetKeepsUnique(m, k, GetOr(m, k, 0.0) + v);
  }

  // ----- outputAmountFor -----

  /** The recipe lists `item` among its outputs. */
  predicate Outputs(r: Recipe, item: string) {
    exists i :: 0 <= i < |r.outputs| && r.outputs[i].item == item
  }

  /** `xs.find(x => key(x) === k)`, as an index: the first element whose
      key is `k`, `None` when there is none. */
  function FindKey<T>(xs: seq<T>, key: T -> string, k: string): (r: Option<nat>)
    ensures r.None? ==> forall i :: 0 <= i < |xs| ==> key(xs[i]) != k
    ensures r.Some? ==> r.value < |xs| && key(xs[r.value]) == k
                        && forall j :: 0 <= j < r.value ==> key(xs[j]) != k
  {
    if xs == [] then None
    else if key(xs[0]) == k then Some(0)
    else match FindKey(xs[1..], key, k)
      case None => None
      case Some(i) => Some(i + 1)
  }

  /** `outputAmountFor(item, r)`: the amount of the first output entry for
      `item`; the thrown error becomes `Err`. */
  function OutputAmountFor(item: string, r: Recipe): (res: Result<real, string>)
    ensures res.Ok? <==> Outputs(r, item)
    ensures res.Ok? ==> exists i :: 0 <= i < |r.outputs| && r.outputs[i] == IO(item, res.value)
                                    && forall j :: 0 <= j < i ==> r.outputs[j].item != item
    ensures res.Err? ==> res.error == "Recipe " + r.slug + " does not output: " + item
  {
    match FindKey(r.outputs, (o: IO) => o.item, item)
    case Some(i) => Ok(r.outputs[i].amount)
    case None => Err("Recipe " + r.slug + " does not output: " + item)
  }

  // ----- pickItemToExpand -----

  /** An entry the loop may expand: more than 1e-12 still needed and a
      producer in the index. */
  predicate Expandable(e: (string, real), idx: Index) {
    e.1 > Eps && Has(idx, e.0)
  }

  /** The key `pickItemToExpand` returns: the first expandable entry in
      iteration order, `None` (`null`) when there is none. */
  function FirstExpandable(demand: Ledger, idx: Index): (r: Option<string>)
    ensures r.None? <==> forall i :: 0 <= i < |demand| ==> !Expandable(demand[i], idx)
    ensures r.Some? ==> exists i :: 0 <= i < |demand| && demand[i].0 == r.value && Expandable(demand[i], idx)
                                    && forall j :: 0 <= j < i ==> !Expandable(demand[j], idx)
  {
    if demand == [] then None
    else if Expandable(demand[0], idx) then Some(demand[0].0)
    else
      var r := FirstExpandable(demand[1..], idx);
      assert forall i :: 1 <= i < |demand| ==> demand[i] == demand[1..][i - 1];
      r
  }

  /** `if (!item) break;`: `null` and the empty string both stop the loop. */
  predicate Truthy(item: Option<string>) {
    item.Some? && item.value != ""
  }

  // ----- recipe choice -----

  /** The pin is honoured: it is set, not the empty string, and names one
      of the candidates. */
  predicate PinValid(cands: seq<Recipe>, pinned: Option<string>) {
    pinned.Some? && pinned.value != "" && exists i :: 0 <= i < |cands| && cands[i].slug == pinned.value
  }

  /** `(pinned && candidates.find(x => x.slug === pinned)) || candidates[0]` */
  function ChooseRecipe(cands: seq<Recipe>, pinned: Option<string>): (r: Recipe)
    requires |cands| > 0
    ensures r in cands
    ensures PinValid(cands, pinned) ==>
      exists i :: 0 <= i < |cands| && r == cands[i] && r.slug == pinned.value
                  && forall j :: 0 <= j < i ==> cands[j].slug != pinned.value
    ensures !PinValid(cands, pinned) ==> r == cands[0]
  {
    if pinned.None? || pinned.value == "" then cands[0]
    else match FindKey(cands, (x: Recipe) => x.slug, pinned.value)
      case Some(i) => cands[i]
      case None => cands[0]
  }

  /** `cfg.recipeChoice?.get(item)` */
  function PinFor(cfg: PlannerConfig, item: string): Option<string> {
    match cfg.recipeChoice
    case None => None
    case Some(choice) => Get(choice, item)
  }

  // ----- the producer index -----

  /** `arr = idx.get(k) ?? []; arr.push(r); idx.set(k, arr)` */
  function Push(idx: Index, k: string, r: Recipe): Index {
    Set(idx, k, GetOr(idx, k, []) + [r])
  }

  /** The inner loop over one recipe's outputs. */
  function IndexOutputs(idx: Index, r: Recipe, outs: seq<IO>): Index
    decreases |outs|
  {
    if outs == [] then idx
    else Push(IndexOutputs(idx, r, outs[..|outs| - 1]), outs[|outs| - 1].item, r)
  }

  /** `prodIndex` after the nested loops over `recipes`. */
  function ProducerIndex(recipes: seq<Recipe>): Index
    decreases |recipes|
  {
    if recipes == [] then []
    else
      var r := recipes[|recipes| - 1];
      IndexOutputs(ProducerIndex(recipes[..|recipes| - 1]), r, r.outputs)
  }

  /** `r`, once for every entry of `outs` that names `item`. */
  function Matching(r: Recipe, outs: seq<IO>, item: string): (ps: seq<Recipe>)
    ensures forall p :: p in ps ==> p == r
    ensures ps == [] <==> forall i :: 0 <= i < |outs| ==> outs[i].item != item
    decreases |outs|
  {
    if outs == [] then []
    else
      var n := |outs| - 1;
      var ps := Matching(r, outs[..n], item) + (if outs[n].item == item then [r] else []);
      assert forall i :: 0 <= i < n ==> outs[..n][i] == outs[i];
      ps
  }

  /** The producers of `item`: every recipe that outputs it, in catalog
      order, once per output entry naming it. */
  function Producers(recipes: seq<Recipe>, item: string): (ps: seq<Recipe>)
    ensures forall p :: p in ps ==> p in recipes && Outputs(p, item)
    ensures ps == [] <==> forall r :: r in recipes ==> !Outputs(r, item)
    decreases |recipes|
  {
    if recipes == [] then []
    else
      var n := |recipes| - 1;
      var ps := Producers(recipes[..n], item) + Matching(recipes[n], recipes[n].outputs, item);
      assert forall r :: r in recipes <==> r in recipes[..n] || r == recipes[n];
      assert Matching(recipes[n], recipes[n].outputs, item) == [] <==> !Outputs(recipes[n], item);
      ps
  }

  /** Every recipe of the catalog that outputs `item` is among its
      producers. */
  lemma {:induction false} ProducersComplete(recipes: seq<Recipe>, item: string, r: Recipe)
    requires r in recipes && Outputs(r, item)
    ensures r in Producers(recipes, item)
    decreases |recipes|
  {
    var n := |recipes| - 1;
    var m := Matching(recipes[n], recipes[n].outputs, item);
    assert Producers(recipes, item) == Producers(recipes[..n], item) + m;
    if r == recipes[n] {
      assert m != [];
      assert m[0] in m;
    } else {
      assert r in recipes[..n] by {
        var i :| 0 <= i < |recipes| && recipes[i] == r;
        assert i < n && recipes[..n][i] == r;
      }
      ProducersComplete(recipes[..n], item, r);
    }
  }

  /** What `get` answers for a producer list: arrays are only ever created
      with one element pushed, so an empty list reads as absent. */
  function AsEntry(ps: seq<Recipe>): Option<seq<Recipe>> {
    if ps == [] then None else Some(ps)
  }

  /** Every output amount in the catalog is nonzero (so `need / outAmt`
      is defined). */
  ghost predicate OutputsNonZero(recipes: seq<Recipe>) {
    forall r, i :: r in recipes && 0 <= i < |r.outputs| ==> r.outputs[i].amount != 0.0
  }

  /** What the loop relies on from `prodIndex.get(item)!`: a nonempty list
      of recipes each of which outputs `item` with a nonzero amount. */
  ghost predicate SoundEntry(k: string, ps: seq<Recipe>) {
    |ps| > 0 && forall p :: p in ps ==> OutputAmountFor(k, p).Ok? && OutputAmountFor(k, p).value != 0.0
  }

  ghost predicate IndexSound(idx: Index) {
    forall k :: Has(idx, k) ==> SoundEntry(k, Get(idx, k).value)
  }

  lemma {:induction false} IndexOutputsLookup(recipes: seq<Recipe>, r: Recipe, outs: seq<IO>, idx: Index, k: string)
    requires Get(idx, k) == AsEntry(Producers(recipes, k))
    ensures Get(IndexOutputs(idx, r, outs), k) == AsEntry(Producers(recipes, k) + Matching(r, outs, k))
    decreases |outs|
  {
    if outs == [] {
      assert Producers(recipes, k) + Matching(r, outs, k) == Producers(recipes, k);
    } else {
      var n := |outs| - 1;
      var prev := IndexOutputs(idx, r, outs[..n]);
      IndexOutputsLookup(recipes, r, outs[..n], idx, k);
      var o := outs[n].item;
      var ps := Producers(recipes, k);
      var before := Matching(r, outs[..n], k);
      assert IndexOutputs(idx, r, outs) == Set(prev, o, GetOr(prev, o, []) + [r]);
      GetSet(prev, o, GetOr(prev, o, []) + [r], k);
      if k == o {
        assert Matching(r, outs, k) == before + [r];
        assert GetOr(prev, o, []) == ps + before;
        assert ps + (before + [r]) == (ps + before) + [r];
      } else {
        assert Matching(r, outs, k) == before;
      }
    }
  }

  /** `prodIndex.get(item)` lists exactly the producers of `item` in
      catalog order, and has no entry for an item nobody outputs. */
  lemma {:induction false} ProducerIndexLookup(recipes: seq<Recipe>, k: string)
    ensures Get(ProducerIndex(recipes), k) == AsEntry(Producers(recipes, k))
    decreases |recipes|
  {
    if recipes != [] {
      var n := |recipes| - 1;
      ProducerIndexLookup(recipes[..n], k);
      IndexOutputsLookup(recipes[..n], recipes[n], recipes[n].outputs, ProducerIndex(recipes[..n]), k);
    }
  }

  /** `prodIndex.get(item)` lists every recipe of the catalog that
      outputs `item`. */
  lemma ProducerIndexComplete(recipes: seq<Recipe>, item: string, r: Recipe)
    requires r in recipes && Outputs(r, item)
    ensures Has(ProducerIndex(recipes), item) && r in Get(ProducerIndex(recipes), item).value
  {
    ProducersComplete(recipes, item, r);
    ProducerIndexLookup(recipes, item);
  }

  /** Every recipe filed under an item outputs that item with a nonzero
      amount, so `outputAmountFor` never throws inside the loop. */
  lemma ProducerIndexSound(recipes: seq<Recipe>)
    requires OutputsNonZero(recipes)
    ensures IndexSound(ProducerIndex(recipes))
  {
    var idx := ProducerIndex(recipes);
    forall k | Has(idx, k) ensures SoundEntry(k, Get(idx, k).value) {
      ProducerIndexLookup(recipes, k);
      var ps := Get(idx, k).value;
      forall p | p in ps ensures OutputAmountFor(k, p).Ok? && OutputAmountFor(k, p).value != 0.0 {
        assert p in recipes && Outputs(p, k);
      }
    }
  }

  // ----- one expansion -----

  /** The ledger change one input or output contributes: `runsPerMin *
      i.amount` for an input, `-runsPerMin * o.amount` for an output. */
  function Flow(io: IO, factor: real): real { factor * io.amount }

  /** `runsPerMin = needPerMin / outAmt` */
  function RunsFor(need: real, outAmt: real): real
    requires outAmt != 0.0
  {
    need / outAmt
  }

  /** `machinesNeeded = (runsPerMin * r.crafting_s) / 60 / factorySpeed` */
  function MachinesFor(runs: real, r: Recipe, factorySpeed: real): real
    requires factorySpeed != 0.0
  {
    runs * r.craftingS / 60.0 / factorySpeed
  }

  /** `for (const io of ios) add(demand, io.item, factor * io.amount)` */
  function ApplyFlows(m: Ledger, ios: seq<IO>, factor: real): Ledger
    decreases |ios|
  {
    if ios == [] then m
    else
      var n := |ios| - 1;
      Add(ApplyFlows(m, ios[..n], factor), ios[n].item, Flow(ios[n], factor))
  }

  /** An entry the cleanup deletes. */
  predicate Tiny(e: (string, real)) { Abs(e.1) < Eps }

  /** The ledger after the cleanup loop: the entries of magnitude at least
      1e-12, in their old order. */
  function Prune(m: Ledger): (r: Ledger)
    ensures forall i :: 0 <= i < |r| ==> !Tiny(r[i])
    ensures forall e :: e in r <==> e in m && !Tiny(e)
  {
    if m == [] then []
    else
      var r := (if Tiny(m[0]) then [] else [m[0]]) + Prune(m[1..]);
      assert forall e :: e in m <==> e == m[0] || e in m[1..];
      r
  }

  /** `cfg.recipeChoice` applied to `prodIndex.get(item)!`. */
  function SelectedRecipe(idx: Index, cfg: PlannerConfig, item: string): Recipe
    requires Has(idx, item) && IndexSound(idx)
  {
    ChooseRecipe(Get(idx, item).value, PinFor(cfg, item))
  }

  /** `runsPerMin = needPerMin / outAmt` for the selected recipe. */
  function RunsPerMin(s: PlanState, idx: Index, cfg: PlannerConfig, item: string): real
    requires Has(s.demand, item) && Has(idx, item) && IndexSound(idx)
  {
    var r := SelectedRecipe(idx, cfg, item);
    RunsFor(Get(s.demand, item).value, OutputAmountFor(item, r).value)
  }

  /** The loop body's updates once the recipe `r` and its `runsPerMin`
      are known: credit the outputs, debit the inputs, prune, and count
      the machines and the runs. */
  function Expand(s: PlanState, r: Recipe, runs: real, factorySpeed: real): PlanState
    requires factorySpeed != 0.0
  {
    PlanState(
      Prune(ApplyFlows(ApplyFlows(s.demand, r.outputs, -runs), r.inputs, runs)),
      Add(s.machines, r.device, MachinesFor(runs, r, factorySpeed)),
      Add(s.recipeRuns, r.slug, runs))
  }

  /** One pass of the loop body for `item`. */
  function Expansion(s: PlanState, item: string, idx: Index, cfg: PlannerConfig): PlanState
    requires Has(s.demand, item) && Has(idx, item) && IndexSound(idx)
    requires cfg.factorySpeedMult != 0.0
  {
    Expand(s, SelectedRecipe(idx, cfg, item), RunsPerMin(s, idx, cfg, item), cfg.factorySpeedMult)
  }

  // ----- the loop -----

  /** One turn of the loop body after the budget check: `None` when
      `pickItemToExpand` gives nothing truthy (the `break`), otherwise the
      state after expanding the picked item. */
  function Step(s: PlanState, idx: Index, cfg: PlannerConfig): Option<PlanState>
    requires IndexSound(idx) && cfg.factorySpeedMult != 0.0
  {
    var item := FirstExpandable(s.demand, idx);
    if !Truthy(item) then None
    else Some(Expansion(s, item.value, idx, cfg))
  }

  /** The loop body as a value for `Loop.Run`. Outside the planner's
      preconditions it breaks at once; `Plan` never uses it there. */
  ghost function Body(idx: Index, cfg: PlannerConfig): PlanState -> Option<PlanState> {
    s => if IndexSound(idx) && cfg.factorySpeedMult != 0.0 then Step(s, idx, cfg) else None
  }

  /** `demand = {targetItem: targetPerMin}`, `machines` and `recipeRuns` empty. */
  function InitialState(targetItem: string, targetPerMin: real): PlanState {
    PlanState([(targetItem, targetPerMin)], [], [])
  }

  /** What `buildPlan` returns: the loop from counter 0, then
      `if (steps >= MAX_STEPS)` picks the arm; both arms carry the maps. */
  ghost function Plan(targetItem: string, targetPerMin: real, recipes: seq<Recipe>, cfg: PlannerConfig): PlanResult
    requires OutputsNonZero(recipes) && cfg.factorySpeedMult != 0.0
  {
    var r := Run(Body(ProducerIndex(recipes), cfg), InitialState(targetItem, targetPerMin), 0, MaxSteps);
    if r.1 >= MaxSteps then Failure(MaxStepsError, r.0.demand, r.0.machines, r.0.recipeRuns)
    else Success(r.0.demand, r.0.machines, r.0.recipeRuns)
  }

  // ----- the source's loops, as methods -----

  /** The nested loops that fill `prodIndex`. */
  method BuildProducerIndex(recipes: seq<Recipe>) returns (idx: Index)
    ensures idx == ProducerIndex(recipes)
  {
    idx := [];
    for i := 0 to |recipes|
      invariant idx == ProducerIndex(recipes[..i])
    {
      var r := recipes[i];
      ghost var before := idx;
      for j := 0 to |r.outputs|
        invariant idx == IndexOutputs(before, r, r.outputs[..j])
      {
        var o := r.outputs[j];
        var arr := GetOr(idx, o.item, []);
        arr := arr + [r];
        idx := Set(idx, o.item, arr);
        assert r.outputs[..j + 1][..j] == r.outputs[..j];
      }
      assert r.outputs[..|r.outputs|] == r.outputs;
      assert recipes[..i + 1][..i] == recipes[..i];
    }
    assert recipes[..|recipes|] == recipes;
  }

  /** The scan of `pickItemToExpand`. */
  method PickItemToExpand(demand: Ledger, idx: Index) returns (item: Option<string>)
    ensures item == FirstExpandable(demand, idx)
  {
    for i := 0 to |demand|
      invariant FirstExpandable(demand[i..], idx) == FirstExpandable(demand, idx)
    {
      var (k, v) := demand[i];
      if v > Eps && Has(idx, k) {
        return Some(k);
      }
      assert demand[i..][1..] == demand[i + 1..];
    }
    return None;
  }

  /** One of the two `for ... add(demand, ...)` loops: `factor` is
      `-runsPerMin` for the outputs and `runsPerMin` for the inputs. */
  method AddFlows(demand: Ledger, ios: seq<IO>, factor: real) returns (d: Ledger)
    ensures d == ApplyFlows(demand, ios, factor)
    ensures KeysUnique(demand) ==> KeysUnique(d)
  {
    d := demand;
    for j := 0 to |ios|
      invariant d == ApplyFlows(demand, ios[..j], factor)
      invariant KeysUnique(demand) ==> KeysUnique(d)
    {
      if KeysUnique(demand) {
        AddKeepsUnique(d, ios[j].item, Flow(ios[j], factor));
      }
      d := Add(d, ios[j].item, Flow(ios[j], factor));
      assert ios[..j + 1][..j] == ios[..j];
    }
    assert ios[..|ios|] == ios;
  }

  lemma {:induction false} PruneAppend(a: Ledger, b: Ledger)
    ensures Prune(a + b) == Prune(a) + Prune(b)
    decreases |a|
  {
    if a == [] {
      assert a + b == b;
    } else {
      assert (a + b)[0] == a[0];
      assert (a + b)[1..] == a[1..] + b;
      PruneAppend(a[1..], b);
    }
  }

  lemma {:induction false} DeleteAbsent(m: Ledger, k: string)
    requires forall i :: 0 <= i < |m| ==> m[i].0 != k
    ensures Delete(m, k) == m
    decreases |m|
  {
    if m != [] {
      DeleteAbsent(m[1..], k);
    }
  }

  lemma {:induction false} DeleteAppend(a: Ledger, b: Ledger, k: string)
    ensures Delete(a + b, k) == Delete(a, k) + Delete(b, k)
    decreases |a|
  {
    if a == [] {
      assert a + b == b;
    } else {
      assert (a + b)[0] == a[0];
      assert (a + b)[1..] == a[1..] + b;
      DeleteAppend(a[1..], b, k);
    }
  }

  lemma PruneKeepsUnique(m: Ledger)
    requires KeysUnique(m)
    ensures KeysUnique(Prune(m))
    decreases |m|
  {
    if m != [] {
      assert KeysUnique(m[1..]) by {
        forall a, b | 0 <= a < b < |m[1..]| ensures m[1..][a].0 != m[1..][b].0 {
          assert m[a + 1].0 != m[b + 1].0;
        }
      }
      PruneKeepsUnique(m[1..]);
      var p := Prune(m[1..]);
      forall j | 0 <= j < |p| ensures p[j].0 != m[0].0 {
        assert p[j] in m[1..];
      }
    }
  }

  /** Deleting the key of entry `i` from the half-cleaned ledger removes
      exactly that entry. */
  lemma DeleteVisited(m: Ledger, i: nat)
    requires KeysUnique(m) && i < |m|
    ensures Delete(Prune(m[..i]) + m[i..], m[i].0) == Prune(m[..i]) + m[i + 1..]
  {
    var k := m[i].0;
    var p := Prune(m[..i]);
    forall j | 0 <= j < |p| ensures p[j].0 != k {
      assert p[j] in m[..i];
    }
    var rest := m[i + 1..];
    forall j | 0 <= j < |rest| ensures rest[j].0 != k {
      assert rest[j] == m[i + 1 + j];
    }
    assert m[i..] == [m[i]] + rest;
    DeleteAppend(p, m[i..], k);
    DeleteAppend([m[i]], rest, k);
    DeleteAbsent(p, k);
    DeleteAbsent(rest, k);
  }

  /** Visiting one more entry prunes it or keeps it. */
  lemma PruneSnoc(m: Ledger, i: nat)
    requires i < |m|
    ensures Prune(m[..i + 1]) == Prune(m[..i]) + (if Tiny(m[i]) then [] else [m[i]])
  {
    assert m[..i + 1] == m[..i] + [m[i]];
    PruneAppend(m[..i], [m[i]]);
    assert [m[i]][1..] == [];
  }

  /** One turn of the cleanup loop keeps `Prune(visited) + unvisited`. */
  lemma CleanupStep(m: Ledger, i: nat)
    requires KeysUnique(m) && i < |m|
    ensures Prune(m[..i + 1]) + m[i + 1..]
         == if Tiny(m[i]) then Delete(Prune(m[..i]) + m[i..], m[i].0) else Prune(m[..i]) + m[i..]
  {
    var p := Prune(m[..i]);
    assert Prune(m[..i + 1]) == p + (if Tiny(m[i]) then [] else [m[i]]) by {
      PruneSnoc(m, i);
    }
    if Tiny(m[i]) {
      assert Delete(p + m[i..], m[i].0) == p + m[i + 1..] by {
        DeleteVisited(m, i);
      }
      assert p + [] == p;
    } else {
      assert m[i..] == [m[i]] + m[i + 1..];
      assert p + [m[i]] + m[i + 1..] == p + ([m[i]] + m[i + 1..]);
    }
  }

  /** The cleanup loop. It deletes while iterating; deleting the entry
      just visited does not change which entries come next, so the visit
      order is that of the ledger before the loop. */
  method Cleanup(demand: Ledger) returns (d: Ledger)
    requires KeysUnique(demand)
    ensures d == Prune(demand)
    ensures KeysUnique(d)
  {
    d := demand;
    for i := 0 to |demand|
      invariant d == Prune(demand[..i]) + demand[i..]
    {
      CleanupStep(demand, i);
      var (k, v) := demand[i];
      if Abs(v) < Eps {
        d := Delete(d, k);
      }
    }
    assert demand[..|demand|] == demand;
    PruneKeepsUnique(demand);
  }

  /** A turn of the loop that expands the picked item. */
  lemma LoopExpands(s: PlanState, idx: Index, cfg: PlannerConfig, steps: nat)
    requires steps < MaxSteps && IndexSound(idx) && cfg.factorySpeedMult != 0.0
    requires Truthy(FirstExpandable(s.demand, idx))
    ensures Has(s.demand, FirstExpandable(s.demand, idx).value)
    ensures Run(Body(idx, cfg), s, steps, MaxSteps)
         == Run(Body(idx, cfg), Expansion(s, FirstExpandable(s.demand, idx).value, idx, cfg), steps + 1, MaxSteps)
  {
    assert Body(idx, cfg)(s) == Step(s, idx, cfg);
  }

  /** The loop ends here: the budget is spent or nothing truthy is left to expand. */
  lemma LoopStops(s: PlanState, idx: Index, cfg: PlannerConfig, steps: nat)
    requires steps <= MaxSteps && IndexSound(idx) && cfg.factorySpeedMult != 0.0
    requires steps == MaxSteps || !Truthy(FirstExpandable(s.demand, idx))
    ensures Run(Body(idx, cfg), s, steps, MaxSteps) == (s, steps + 1)
  {
    assert Body(idx, cfg)(s) == Step(s, idx, cfg);
  }

  /** The loop body's updates for a known recipe and rate. */
  method ApplyRecipe(demand0: Ledger, machines0: Ledger, recipeRuns0: Ledger, r: Recipe, runsPerMin: real, factorySpeed: real)
    returns (demand: Ledger, machines: Ledger, recipeRuns: Ledger)
    requires factorySpeed != 0.0
    requires KeysUnique(demand0)
    ensures PlanState(demand, machines, recipeRuns) == Expand(PlanState(demand0, machines0, recipeRuns0), r, runsPerMin, factorySpeed)
    ensures KeysUnique(demand)
  {
    recipeRuns := Add(recipeRuns0, r.slug, runsPerMin);
    var machinesNeeded := MachinesFor(runsPerMin, r, factorySpeed);
    machines := Add(machines0, r.device, machinesNeeded);

    demand := AddFlows(demand0, r.outputs, -runsPerMin);
    demand := AddFlows(demand, r.inputs, runsPerMin);
    demand := Cleanup(demand);
  }

  /** The loop body after the pick: expand `item` with its chosen recipe. */
  method ExpandItem(demand0: Ledger, machines0: Ledger, recipeRuns0: Ledger, item: string, prodIndex: Index, cfg: PlannerConfig)
    returns (demand: Ledger, machines: Ledger, recipeRuns: Ledger)
    requires Has(demand0, item) && Has(prodIndex, item) && IndexSound(prodIndex) && cfg.factorySpeedMult != 0.0
    requires KeysUnique(demand0)
    ensures PlanState(demand, machines, recipeRuns) == Expansion(PlanState(demand0, machines0, recipeRuns0), item, prodIndex, cfg)
    ensures KeysUnique(demand)
  {
    var needPerMin := Get(demand0, item).value;
    var candidates := Get(prodIndex, item).value;
    var r := ChooseRecipe(candidates, PinFor(cfg, item));
    var outAmt := OutputAmountFor(item, r).value;
    var runsPerMin := RunsFor(needPerMin, outAmt);
    demand, machines, recipeRuns := ApplyRecipe(demand0, machines0, recipeRuns0, r, runsPerMin, cfg.factorySpeedMult);
  }

  /** The `while (steps++ < MAX_STEPS)` loop of `buildPlan`, from state
      `s0`: it stops at the state `Run` reaches and with the same count. */
  method ExpandLoop(s0: PlanState, prodIndex: Index, cfg: PlannerConfig)
    returns (demand: Ledger, machines: Ledger, recipeRuns: Ledger, steps: nat)
    requires IndexSound(prodIndex) && cfg.factorySpeedMult != 0.0
    requires KeysUnique(s0.demand)
    ensures (PlanState(demand, machines, recipeRuns), steps) == Run(Body(prodIndex, cfg), s0, 0, MaxSteps)
  {
    demand, machines, recipeRuns := s0.demand, s0.machines, s0.recipeRuns;
    ghost var final := Run(Body(prodIndex, cfg), s0, 0, MaxSteps);

    steps := 0;
    while true
      invariant steps <= MaxSteps
      invariant KeysUnique(demand)
      invariant Run(Body(prodIndex, cfg), PlanState(demand, machines, recipeRuns), steps, MaxSteps) == final
      decreases MaxSteps - steps
    {
      ghost var before := PlanState(demand, machines, recipeRuns);
      var below := steps < MaxSteps;
      steps := steps + 1;
      if !below {
        LoopStops(before, prodIndex, cfg, steps - 1);
        break;
      }

      var picked := PickItemToExpand(demand, prodIndex);
      if !Truthy(picked) {
        LoopStops(before, prodIndex, cfg, steps - 1);
        break;
      }
      var item := picked.value;
      LoopExpands(before, prodIndex, cfg, steps - 1);

      demand, machines, recipeRuns := ExpandItem(demand, machines, recipeRuns, item, prodIndex, cfg);
    }
  }

  /** `buildPlan(targetItem, targetPerMin, recipes, cfg)`. */
  method BuildPlan(targetItem: string, targetPerMin: real, recipes: seq<Recipe>, cfg: PlannerConfig)
    returns (res: PlanResult)
    requires OutputsNonZero(recipes) && cfg.factorySpeedMult != 0.0
    ensures res == Plan(targetItem, targetPerMin, recipes, cfg)
  {
    var prodIndex := BuildProducerIndex(recipes);
    ProducerIndexSound(recipes);

    var demand: Ledger := Set([], targetItem, targetPerMin);
    assert demand == InitialState(targetItem, targetPerMin).demand;
    var machines: Ledger := [];
    var recipeRuns: Ledger := [];

    var steps;
    demand, machines, recipeRuns, steps := ExpandLoop(PlanState(demand, machines, recipeRuns), prodIndex, cfg);

    if steps >= MaxSteps {
      return Failure(MaxStepsError, demand, machines, recipeRuns);
    }
    return Success(demand, machines, recipeRuns);
  }
}
