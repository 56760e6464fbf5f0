/** The records of `src/types.ts`. Rates are exact reals; numbers read
    from the catalog are taken as already coerced by the loader. */
module Types {
  import opened Wrappers
  import opened OrderedMap

  /** One input or output of a recipe: an item and an amount per run. */
  datatype IO = IO(item: string, amount: real)

  datatype Recipe = Recipe(
    name: string,
    slug: string,
    device: string,
    craftingS: real,
    inputs: seq<IO>,
    outputs: seq<IO>,
    url: Option<string>)

  /** A `Map<string, number>`: item, device or slug to a per-minute figure. */
  type Ledger = Assoc<real>

  /** `fuelValueMult` and `nutrientValueMult` are carried but never read by
      the planner. `recipeChoice` (item to pinned slug) is optional. */
  datatype PlannerConfig = PlannerConfig(
    factorySpeedMult: real,
    fuelValueMult: real,
    nutrientValueMult: real,
    recipeChoice: Option<Assoc<string>>)

  /** The two-armed union `{ ok: true, ... } | { ok: false, error, ... }`:
      both arms carry the three maps. */
  datatype PlanResult =
    | Success(demand: Ledger, machines: Ledger, recipeRuns: Ledger)
    | Failure(error: string, demand: Ledger, machines: Ledger, recipeRuns: Ledger)
  {
    predicate Ok() { Success? }
  }
}
