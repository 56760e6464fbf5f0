/** The control flow of `while (steps++ < MAX_STEPS) { ... if (!item) break; ... }`
    in `src/lib/planner.ts`, for any state and any loop body: the counter is
    compared with the budget and then incremented on every check, including
    the check that fails and the turn that breaks. */
module Loop {
  import opened Wrappers

  /** The loop entered with counter value `steps`. `next` is one turn of
      the body: `None` when it breaks, otherwise the new state. The result
      is the final state and the counter's value after the loop. */
  function Run<S>(next: S -> Option<S>, s: S, steps: nat, max: nat): (r: (S, nat))
    requires steps <= max
    ensures steps < r.1 <= max + 1
    decreases max - steps
  {
    if steps >= max then (s, steps + 1)
    else match next(s)
      case None => (s, steps + 1)
      case Some(s') => Run(next, s', steps + 1, max)
  }

  /** `k` turns of the body that do not break, starting from `s`; `None`
      when one of them breaks first. */
  function Iterate<S>(next: S -> Option<S>, s: S, k: nat): Option<S>
    decreases k
  {
    if k == 0 then Some(s)
    else match next(s)
      case None => None
      case Some(s') => Iterate(next, s', k - 1)
  }

  /** The loop performs `n - 1 - steps` complete turns, where `n` is the
      counter it leaves behind, so at most `max - steps`; if the counter
      ends at or below `max`, the loop ended because the body broke. */
  lemma {:induction false} RunSpec<S>(next: S -> Option<S>, s: S, steps: nat, max: nat)
    requires steps <= max
    ensures Iterate(next, s, Run(next, s, steps, max).1 - 1 - steps) == Some(Run(next, s, steps, max).0)
    ensures Run(next, s, steps, max).1 <= max ==> next(Run(next, s, steps, max).0).None?
    decreases max - steps
  {
    if steps < max && next(s).Some? {
      var s' := next(s).value;
      RunSpec(next, s', steps + 1, max);
      var n := Run(next, s', steps + 1, max).1;
      assert n - 1 - steps == (n - 1 - (steps + 1)) + 1;
    }
  }

  /** The loop from counter 0 ends after `e <= max` complete turns; the
      final counter is below `max` exactly when `e < max - 1`. */
  lemma RunOutcome<S>(next: S -> Option<S>, s: S, max: nat)
    ensures exists e: nat :: e <= max && Iterate(next, s, e) == Some(Run(next, s, 0, max).0)
                             && (Run(next, s, 0, max).1 < max <==> e < max - 1)
    ensures Run(next, s, 0, max).1 <= max ==> next(Run(next, s, 0, max).0).None?
  {
    RunSpec(next, s, 0, max);
    var e: nat := Run(next, s, 0, max).1 - 1;
    assert Iterate(next, s, e) == Some(Run(next, s, 0, max).0);
  }

  /** A state where the body breaks, reached after `k` complete turns
      within the budget, is where the loop stops; the counter is then one
      past the last check, or `max + 1` when the budget was spent first. */
  lemma {:induction false} RunFixpoint<S>(next: S -> Option<S>, s: S, steps: nat, max: nat, k: nat, t: S)
    requires steps + k <= max
    requires Iterate(next, s, k) == Some(t) && next(t).None?
    ensures Run(next, s, steps, max).0 == t
    ensures Run(next, s, steps, max).1 == if steps + k < max then steps + k + 1 else max + 1
    decreases k
  {
    if k > 0 {
      RunFixpoint(next, next(s).value, steps + 1, max, k - 1, t);
    }
  }

  /** Two loops whose bodies keep a relation `rel` between their states,
      and break together, run in lockstep: they end in related states with
      the same counter. */
  lemma {:induction false} RunSimulation<S, T>(next1: S -> Option<S>, next2: T -> Option<T>, rel: (S, T) -> bool,
                                               s: S, t: T, steps: nat, max: nat)
    requires steps <= max && rel(s, t)
    requires forall a, b :: rel(a, b) ==>
      next1(a).None? == next2(b).None? && (next1(a).Some? ==> rel(next1(a).value, next2(b).value))
    ensures rel(Run(next1, s, steps, max).0, Run(next2, t, steps, max).0)
    ensures Run(next1, s, steps, max).1 == Run(next2, t, steps, max).1
    decreases max - steps
  {
    if steps < max && next1(s).Some? {
      RunSimulation(next1, next2, rel, next1(s).value, next2(t).value, steps + 1, max);
    }
  }

  /** A property every turn of the body keeps holds of the state the
      loop ends in. */
  lemma {:induction false} RunInvariant<S>(next: S -> Option<S>, inv: S -> bool, s: S, steps: nat, max: nat)
    requires steps <= max && inv(s)
    requires forall a :: inv(a) && next(a).Some? ==> inv(next(a).value)
    ensures inv(Run(next, s, steps, max).0)
    decreases max - steps
  {
    if steps < max && next(s).Some? {
      RunInvariant(next, inv, next(s).value, steps + 1, max);
    }
  }
}
