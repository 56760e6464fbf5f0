# Recipe planner: a Dafny model

This project models the planning core of a production-chain calculator
for a crafting game. The user picks a target item and either a rate in
units per minute or a number of devices. `buildPlan` in
`src/lib/planner.ts` then works out which recipes must run to meet that
demand, how often they run, and how many machines of each device they
need.

The planner keeps three JavaScript `Map`s:
- a signed **demand** ledger: positive for still needed, negative for surplus;
- the **machines** per device;
- the **recipe runs** per recipe slug.

Each turn of its loop:
1. picks the first item in the demand's iteration order that is needed by
   more than 1e-12 and has a producer;
2. picks the pinned producer or else the first one;
3. credits the recipe's outputs and debits its inputs;
4. deletes every entry below 1e-12 in magnitude.

The loop stops when nothing is left to expand, or after 25000
expansions.

`src/App.tsx` turns the form's inputs into a call of `buildPlan`:
- the percentage multipliers (`pctToMult`);
- the catalog's item set;
- the producer lookup;
- in devices mode, the conversion of a device count into a target rate.

## Modules

- `Wrappers`: `Option` and `Result`.
- `OrderedMap`: a JavaScript `Map` as an insertion-ordered association list.
  - `set` overwrites a present key in place and appends an absent one.
  - `delete` removes the key.
  - Iteration follows the sequence order.
- `Types`: the records of `src/types.ts`. Amounts and rates are exact reals.
- `Loop`: the control flow of `while (steps++ < MAX_STEPS)` for any loop
  body, with lemmas about counting, fixpoints, simulation and invariants.
- `Planner`: specification functions and the source's loops as methods.
  - The functions are `add`, `outputAmountFor`, `pickItemToExpand`, the
    producer index, the recipe choice, one expansion and the whole loop.
  - The loops are `BuildProducerIndex`, `PickItemToExpand`, `AddFlows`,
    `Cleanup`, `ApplyRecipe`, `ExpandItem`, `ExpandLoop` and `BuildPlan`.
  - Each method is proved to compute its function.
  - `Cleanup` deletes while it iterates, as the source does. It is proved
    equal to filtering the ledger as it stood before the loop.
- `LedgerProps` and `ExpansionProps`: what one expansion does to each key
  of each map.
- `PlannerProps`: what `buildPlan` returns as a whole.
- `SpeedProps`: how the configuration affects the plan.
  - The speed multiplier only scales the machine counts.
  - The fuel and nutrient multipliers are never read.
- `App`:
  - `pctToMult`;
  - the `items` set;
  - `recipesByOutputItem`;
  - the target rate and the `plan` memo;
  - the end-to-end property that in devices mode the first expansion books
    exactly the requested number of devices.

JavaScript details kept on purpose:
- **Empty item name.** `if (!item) break;` treats an item named with the
  empty string as falsy, so such an item stops the loop. `Planner.Truthy`
  models this.
- **Empty pin.** `pinned && ...` ignores a pin set to the empty string.
- **Step counter.** The counter is incremented on every check, including
  the check that fails. So a plan that runs out of work after exactly
  24999 expansions is still reported as "Max steps reached".
  `PlannerProps.LastStepFixpointFails` proves this from the loop
  condition at line 49 and the test `steps >= MAX_STEPS` at line 80.
- **Duplicate outputs.** A recipe that lists the same output twice is
  pushed twice onto that item's producer list, as the nested loops do.

## Model

| member | source | states |
|---|---|---|
| OrderedMap.Has | src/lib/planner.ts:15 | `map.has(k)`: some entry has key `k`; `OrderedMap.Get` states its relation to `get` |
| OrderedMap.Get | src/lib/planner.ts:4 | `map.get(k)`: undefined exactly when `k` is absent; otherwise the value of an entry under `k` |
| OrderedMap.Set | src/lib/planner.ts:4 | `map.set(k, v)`: a present key is overwritten where it stands; an absent key is appended |
| OrderedMap.Delete | src/lib/planner.ts:76 | `map.delete(k)`: `k` is absent afterwards, the other entries remain, and no entry is added |
| OrderedMap.GetOr | src/lib/planner.ts:4 | `map.get(k) ?? d` (`?? 0` here, `?? []` at line 34); `Planner.AddGet` states what `add` makes of it |
| OrderedMap.GetSet | src/lib/planner.ts:3-5 | after `set(k, v)`, `get(k)` is `v` and every other key reads as before |
| OrderedMap.GetDelete | src/lib/planner.ts:75-77 | after `delete(k)`, `k` is absent and every other key reads as before |
| OrderedMap.ReAddGoesLast | src/lib/planner.ts:75-77 | a key deleted and set again moves to the end of the iteration order |
| OrderedMap.GetUnique | src/lib/planner.ts:14 | in a map without repeated keys, every entry met while iterating is what `get` returns for its key |
| OrderedMap.DeleteKeepsUnique | src/lib/planner.ts:76 | `delete` keeps the keys distinct |
| Planner.Add | src/lib/planner.ts:3-5 | `add`: `map.set(key, (map.get(key) ?? 0) + val)`; `Planner.AddGet`, `Planner.AddKeys` and `Planner.AddKeepsUnique` characterise it |
| Planner.AddGet | src/lib/planner.ts:3-5 | after `add`, the key holds its old value (or 0) plus `val`, and every other key is unchanged |
| Planner.AddKeys | src/lib/planner.ts:3-5 | `add` keeps a present key in its place and appends a new key last |
| Planner.AddKeepsUnique | src/lib/planner.ts:3-5 | `add` keeps the keys distinct |
| Planner.OutputAmountFor | src/lib/planner.ts:7-11 | Ok exactly when the recipe lists the item among its outputs; the value is the amount of the first entry naming the item; otherwise the error is "Recipe <slug> does not output: <item>" |
| Planner.Expandable | src/lib/planner.ts:15 | `v > 1e-12 && prodIndex.has(item)`; `Planner.FirstExpandable` states the pick in terms of it |
| Planner.Truthy | src/lib/planner.ts:51 | `if (!item) break`: null and the empty string stop the loop; `PlannerProps.BodyTurn` states that a turn that does not stop expands a truthy pick |
| Planner.FirstExpandable | src/lib/planner.ts:13-18 | `None` exactly when no entry needs more than 1e-12 and has a producer; otherwise the key of the first such entry in iteration order |
| Planner.PickItemToExpand | src/lib/planner.ts:13-18 | the iterating loop returns the first expandable key, or null |
| Planner.FindKey | src/lib/planner.ts:8 | `find` by a key (the output's item here, the candidate's slug at line 57): the index of the first element with that key, or none when no element has it |
| Planner.ChooseRecipe | src/lib/planner.ts:56-57 | the result is a candidate; a non-empty pin that names a candidate selects the first candidate with that slug; otherwise the first candidate |
| Planner.Matching | src/lib/planner.ts:33-37 | the recipe once per output entry naming the item; empty exactly when no entry names it |
| Planner.Producers | src/lib/planner.ts:31-38 | every listed producer is in the catalog and outputs the item; empty exactly when no recipe outputs it |
| Planner.IndexOutputsLookup | src/lib/planner.ts:33-37 | the inner loop appends the recipe to the item's list once per output entry naming it |
| Planner.ProducersComplete | src/lib/planner.ts:31-38 | every recipe of the catalog that outputs the item is among its producers |
| Planner.ProducerIndexLookup | src/lib/planner.ts:31-38 | `prodIndex.get(k)` is the producers of `k` in catalog order, and undefined exactly when there are none |
| Planner.PinFor | src/lib/planner.ts:56 | `cfg.recipeChoice?.get(item)`; `SpeedProps.BodySame` shows it is the only part of the configuration besides the speed that a turn reads |
| Planner.Push | src/lib/planner.ts:34-36 | get-or-empty, push, set; `Planner.IndexOutputsLookup` characterises it |
| Planner.IndexOutputs | src/lib/planner.ts:33-37 | the inner loop over one recipe's outputs; `Planner.IndexOutputsLookup` characterises it |
| Planner.ProducerIndex | src/lib/planner.ts:31-38 | `prodIndex` after the nested loops; `Planner.ProducerIndexLookup` and `Planner.ProducerIndexSound` characterise it |
| Planner.ProducerIndexComplete | src/lib/planner.ts:31-38 | `prodIndex` has an entry for every item some recipe outputs, and the entry lists every such recipe |
| Planner.BuildProducerIndex | src/lib/planner.ts:31-38 | the nested loops build exactly `ProducerIndex(recipes)` |
| Planner.ProducerIndexSound | src/lib/planner.ts:53-60 | every index entry is a nonempty list of recipes that output the item with a nonzero amount, so `get(item)!`, `outputAmountFor` and `need / outAmt` cannot fail |
| Planner.Flow | src/lib/planner.ts:69-72 | the change one entry makes: `-runsPerMin * o.amount` for an output, `runsPerMin * i.amount` for an input; `LedgerProps.FlowTotalScale` sums it |
| Planner.ApplyFlows | src/lib/planner.ts:69-72 | the `add` loop over a list at a factor; `LedgerProps.ApplyFlowsNet`, `LedgerProps.ApplyFlowsOther`, `LedgerProps.ApplyFlowsKeys` and `LedgerProps.ApplyFlowsKeepsUnique` characterise it |
| Planner.AddFlows | src/lib/planner.ts:69-72 | the `add` loop over outputs or inputs computes `ApplyFlows` and keeps the keys distinct |
| Planner.Tiny | src/lib/planner.ts:76 | `Math.abs(v) < 1e-12`; `Planner.Prune` states that the cleanup removes exactly these entries |
| Planner.Prune | src/lib/planner.ts:75-77 | the cleaned ledger has no entry below 1e-12 in magnitude, and its entries are exactly the old entries at or above it |
| Planner.PruneAppend | src/lib/planner.ts:75-77 | cleaning a concatenation cleans each part |
| Planner.DeleteVisited | src/lib/planner.ts:76 | deleting the key just visited removes exactly that entry from the half-cleaned ledger |
| Planner.PruneSnoc | src/lib/planner.ts:75-77 | visiting one more entry keeps it or drops it |
| Planner.CleanupStep | src/lib/planner.ts:75-77 | one turn of the cleanup keeps "cleaned prefix + unvisited rest" |
| Planner.PruneKeepsUnique | src/lib/planner.ts:75-77 | the cleanup keeps the keys distinct |
| Planner.Cleanup | src/lib/planner.ts:75-77 | deleting while iterating leaves exactly the entries of the original ledger at or above 1e-12, in their order |
| Planner.ApplyRecipe | src/lib/planner.ts:62-77 | the updates for a chosen recipe and rate compute `Expand`, and the demand keeps distinct keys |
| Planner.SelectedRecipe | src/lib/planner.ts:54-57 | the pinned-or-first recipe from `prodIndex.get(item)!`; `Planner.ChooseRecipe` characterises the choice |
| Planner.RunsFor | src/lib/planner.ts:60 | `needPerMin / outAmt`; `ExpansionProps.OutputsMeetNeed` shows these runs make exactly the need |
| Planner.RunsPerMin | src/lib/planner.ts:53-60 | the runs per minute for the picked item and its selected recipe; `ExpansionProps.ExpansionMeetsNeed` shows they meet the item's demand |
| Planner.MachinesFor | src/lib/planner.ts:65 | `(runsPerMin * r.crafting_s) / 60 / factorySpeed`; `ExpansionProps.ExpandCounts` books it on the device and `SpeedProps.MachinesScale` relates it across speeds |
| Planner.Expand | src/lib/planner.ts:62-77 | the updates for a known recipe and rate; `ExpansionProps.ExpandDemand` and `ExpansionProps.ExpandCounts` characterise it |
| Planner.Expansion | src/lib/planner.ts:53-77 | one loop body after the pick; `ExpansionProps.ExpansionMeetsNeed` characterises it |
| Planner.Step | src/lib/planner.ts:50-77 | a turn after the budget check: break on a falsy pick, otherwise expand; `PlannerProps.BodyTurn` characterises it |
| Planner.ExpandItem | src/lib/planner.ts:53-77 | one loop body after the pick computes `Expansion` |
| Planner.LoopExpands | src/lib/planner.ts:49-51 | a check within budget with a truthy pick continues the loop from the expansion of that item |
| Planner.LoopStops | src/lib/planner.ts:49-51 | a spent budget or a falsy pick ends the loop with the counter one past the check |
| Planner.ExpandLoop | src/lib/planner.ts:46-78 | the loop ends in the state, and with the counter, that `Run` of the body gives |
| Planner.InitialState | src/lib/planner.ts:40-44 | the demand holding only `targetItem: targetPerMin`, and no machines or runs; `App.FirstTurn` states its first turn |
| Planner.Body | src/lib/planner.ts:50-77 | one turn of the loop as a function for `Loop.Run`; `PlannerProps.BodyTurn` characterises it |
| Planner.Plan | src/lib/planner.ts:25-85 | the result of `buildPlan`; `PlannerProps.PlanOutcome`, `PlannerProps.OkIffEarlyFixpoint`, `PlannerProps.PlanDemandClean` and `SpeedProps.PlanSpeedScaling` characterise it |
| Planner.BuildPlan | src/lib/planner.ts:25-85 | `buildPlan` returns exactly `Plan(targetItem, targetPerMin, recipes, cfg)` |
| Loop.Run | src/lib/planner.ts:49-51 | `while (steps++ < max)` with a breaking body: the final counter is above the starting one and at most `max + 1` |
| Loop.RunSpec | src/lib/planner.ts:49-51 | the loop makes (final counter - 1) complete turns, and if the counter ends within budget, the body broke |
| Loop.RunOutcome | src/lib/planner.ts:49-51 | from counter 0 the loop ends after `e <= MAX_STEPS` turns, with a final counter below the budget exactly when `e < MAX_STEPS - 1` |
| Loop.RunFixpoint | src/lib/planner.ts:49-51 | a breaking state reached within the budget is where the loop stops, with the counter it stops at |
| Loop.RunSimulation | src/lib/planner.ts:49-78 | two loops whose bodies keep a relation end in related states with the same counter |
| Loop.RunInvariant | src/lib/planner.ts:49-78 | a property every turn keeps holds at the end of the loop |
| PlannerProps.PlanOutcome | src/lib/planner.ts:49-84 | the result holds the maps after some `e <= 25000` expansions; it is `ok` exactly when `e < 24999`; `ok` leaves nothing to expand; failure carries the budget message |
| PlannerProps.OkIffEarlyFixpoint | src/lib/planner.ts:49-84 | a state with nothing to expand reached after `k` expansions is the result, and it is `ok` exactly when `k < 24999` |
| PlannerProps.LastStepFixpointFails | src/lib/planner.ts:49-81 | a plan that finishes after exactly 24999 expansions is reported as "Max steps reached" |
| PlannerProps.BodyTurn | src/lib/planner.ts:50-77 | a turn that does not break expands the first truthy expandable item |
| PlannerProps.BodyKeepsUnique | src/lib/planner.ts:62-77 | a turn keeps the demand keys distinct |
| PlannerProps.BodyClean | src/lib/planner.ts:74-77 | after a turn, no demand entry is below 1e-12 in magnitude |
| PlannerProps.PlanDemandClean | src/lib/planner.ts:40-84 | the returned demand has distinct keys, and is either the untouched start or free of entries below 1e-12 |
| PlannerProps.PlanSuccessLeftovers | src/lib/planner.ts:13-18 | on success (no empty-named item), every demand above 1e-12 left is for an item no recipe outputs |
| LedgerProps.FlowTotalScale | src/lib/planner.ts:69-72 | the summed flow of a loop at factor `f` is `f` times the listed amounts |
| LedgerProps.ApplyFlowsSum | src/lib/planner.ts:69-72 | after the `add` loop, each key holds its old value plus its summed flows |
| LedgerProps.ApplyFlowsNet | src/lib/planner.ts:69-72 | after the `add` loop with factor `f`, each key holds its old value (or 0) plus `f` times the amounts listed for it |
| LedgerProps.ApplyFlowsKeepsUnique | src/lib/planner.ts:69-72 | the `add` loop keeps the keys distinct |
| LedgerProps.ApplyFlowsOther | src/lib/planner.ts:69-72 | a key no entry names is untouched |
| LedgerProps.ApplyFlowsKeys | src/lib/planner.ts:69-72 | the old keys stay in place as a prefix of the new keys |
| LedgerProps.PruneGet | src/lib/planner.ts:75-77 | the cleanup keeps a key exactly when its value is at least 1e-12 in magnitude, with that value |
| LedgerProps.PruneSettled | src/lib/planner.ts:75-77 | after the cleanup, each key reads as `Settled` of its old figure (0 when absent) |
| LedgerProps.CreditDebit | src/lib/planner.ts:68-72 | crediting the outputs and then debiting the inputs adds both flows to each key |
| LedgerProps.RecipeNet | src/lib/planner.ts:68-77 | after credit, debit and cleanup, each key holds its old figure plus both flows, or nothing when that sum is below 1e-12 |
| ExpansionProps.ExpandDemand | src/lib/planner.ts:68-77 | an expansion's effect on each item's demand |
| ExpansionProps.ExpandCounts | src/lib/planner.ts:62-66 | the recipe's slug gains `runs`, its device gains the machine count, every other key is unchanged, and new keys are appended |
| ExpansionProps.OutputsMeetNeed | src/lib/planner.ts:59-69 | running at `need / outAmt` produces exactly `need` of an item listed once |
| ExpansionProps.NoFlow | src/lib/planner.ts:69-72 | an item the recipe does not list gets no flow |
| ExpansionProps.ExpansionMeetsNeed | src/lib/planner.ts:53-77 | when the chosen recipe lists the item once among its outputs, expanding the picked item meets its demand exactly: only the recipe's own consumption of the item is left, and the entry is removed when there is none |
| ExpansionProps.ExpandKeepsUnique | src/lib/planner.ts:68-77 | an expansion keeps the demand keys distinct |
| SpeedProps.AddScaled | src/lib/planner.ts:66 | adding related amounts to related machine maps keeps them related |
| SpeedProps.MachinesScale | src/lib/planner.ts:64-65 | the machine count at speed `f2` is the count at `f1` times `f1 / f2` |
| SpeedProps.ExpandScaled | src/lib/planner.ts:62-77 | one expansion at two speeds gives equal demand and runs, and machines scaled by `f1 / f2` |
| SpeedProps.BodyScaled | src/lib/planner.ts:49-77 | two loop bodies at two speeds break together and keep that relation |
| SpeedProps.PlanSpeedScaling | src/lib/planner.ts:64-66 | two factory speeds give the same outcome, demand and recipe runs, with the same devices in the same order and machine counts scaled by `f1 / f2` |
| SpeedProps.BodySame | src/lib/planner.ts:56-64 | a loop turn reads only the speed multiplier and the pins of the configuration |
| SpeedProps.PlanIgnoresOtherMultipliers | src/lib/planner.ts:25-85 | two configurations that agree on the speed and the pins give the same plan, whatever the fuel and nutrient multipliers |
| App.PctToMult | src/App.tsx:5 | the multiplier is 1 exactly for a non-finite or zero percentage; positive exactly above -100 %; zero exactly at -100 % |
| App.PctToMultRoundTrip | src/App.tsx:5 | on finite percentages, `pctToMult` and its inverse `(m - 1) * 100` undo each other |
| App.PctToMultMonotone | src/App.tsx:5 | a larger finite percentage gives a larger multiplier, and conversely |
| App.ItemsOf | src/App.tsx:50-51 | exactly the item names the inputs or outputs list |
| App.MentionsItems | src/App.tsx:50-51 | an item is in a recipe's input and output names exactly when the recipe mentions it |
| App.MentionedInSnoc | src/App.tsx:49-52 | a catalog with one more recipe mentions an item exactly when the shorter catalog or the new recipe does |
| App.CatalogItems | src/App.tsx:47-52 | the item set of the catalog; `App.CatalogItemsMentions` characterises it |
| App.CatalogItemsMentions | src/App.tsx:47-52 | an item is in the catalog's item set exactly when some recipe lists it as an input or an output |
| App.AddItems | src/App.tsx:50-51 | the `forEach` adds exactly the listed item names to the set |
| App.CollectItems | src/App.tsx:47-52 | the `items` loop builds exactly the set of names some recipe mentions |
| App.RecipesByOutputItem | src/App.tsx:56-66 | the memo is the planner's producer index: each item maps to its producers in catalog order, and an item no recipe outputs has no entry |
| App.TargetRecipe | src/App.tsx:101-102 | the recipe the devices mode sizes is in the catalog and outputs the target |
| App.DeviceRunsPerMin | src/App.tsx:106 | `(60 / r.crafting_s) * factorySpeed`; `App.DevicesRateRoundTrip` shows it is the runs per minute of one device under the planner's machine formula |
| App.DevicesRate | src/App.tsx:104-108 | `targetValue * runsPerMinPerDevice * outAmt`; `App.DevicesRateRoundTrip` shows that the planner turns it back into `targetValue` devices |
| App.TargetRate | src/App.tsx:92-109 | null exactly for an empty target, an empty catalog, or devices mode without a producer; rate mode passes the value unchanged; devices mode gives `targetValue * (60 / crafting_s) * pctToMult(factoryPct) * outAmt` for the pinned-or-first producer |
| App.DeviceCount | src/App.tsx:104-108 | converting the devices-mode rate back gives `targetValue` devices |
| App.DevicesRateRoundTrip | src/App.tsx:104-108 | the devices-mode rate divided back by `outAmt` is `targetValue` devices' runs per minute, and `buildPlan`'s machine formula turns it back into `targetValue` devices |
| App.MemoConfig | src/App.tsx:111-116 | the configuration the memo passes: the three percentages as multipliers and the pins; `App.MemoIgnoresFuelAndNutrient` shows the last two multipliers do not matter |
| App.PlanMemo | src/App.tsx:92-117 | null exactly in the three early-return cases; otherwise `buildPlan` at the target rate with the three multipliers and the pins |
| App.MemoIgnoresFuelAndNutrient | src/App.tsx:111-116 | the fuel and nutrient percentages do not change the plan |
| App.FirstTurn | src/lib/planner.ts:49-77 | from a lone demand above 1e-12 for a non-empty item with producers, the first turn expands that item with its pinned-or-first producer at `need / outAmt` runs |
| App.FirstTurnBooks | src/lib/planner.ts:62-66 | that first turn books one device entry and one run entry |
| App.ExpandFromEmpty | src/lib/planner.ts:62-66 | an expansion from empty machine and run maps books one entry in each |
| App.DevicesModeFirstExpansion | src/App.tsx:97-116 | in devices mode, `buildPlan`'s first expansion books exactly `targetValue` devices of the sized recipe's device, and `targetValue` times one device's runs per minute |

## Left out

- **Floating point.** All figures are exact reals: IEEE rounding, NaN and the infinities are not modelled.
  - The one exception is `pctToMult`'s `Number.isFinite` test, which the `Number` datatype models.
  - The divisions that could yield an infinity or NaN are excluded by preconditions. These are a zero output amount (`OutputsNonZero`), a zero `crafting_s` in devices mode (`CraftingTimesNonZero`), and a zero factory multiplier, i.e. a factory bonus of -100 %.
- **The throw in `outputAmountFor`.** `OutputAmountFor` models it as an error result. `Planner.ProducerIndexSound` proves that `buildPlan` never reaches it, so no exception path is modelled in `BuildPlan`.
- **Loading the catalog.** The fetch of `recipes.json` and the clean-up of its JSON (`src/App.tsx:27-45`) are I/O. The model takes the catalog as an already typed sequence of recipes.
- **URL state.** Reading and writing the URL parameters (`src/App.tsx:68-90`) is browser I/O.
- **Rendering and `fmt`.** The JSX rendering and the number formatting (`src/App.tsx:7-12`, `src/App.tsx:119-224`) are presentation only.
- **React state.** `useMemo` and the state hooks are replaced by plain parameters: each memo is a function of its dependencies.
- App.CollectItems: the model gives the item set, not the array sorted with `localeCompare(…, "de")`. Locale collation is outside the model.
- **Maps as values.** Maps are immutable values. Aliasing is not modelled: the producer arrays that `prodIndex` shares and mutates through `arr.push` only ever become visible through `get`.
- **Unused multipliers.** `fuelValueMult` and `nutrientValueMult` are carried but never read. The model only proves that they make no difference (`SpeedProps.PlanIgnoresOtherMultipliers`).
- **Catalog generation.** `scripts/build_recipes.py`, which produces the catalog, is not part of this model.
