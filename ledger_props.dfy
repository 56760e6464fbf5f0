/** What the ledger updates of one expansion do to individual keys: the
    net effect of the `add` loops over a recipe's outputs and inputs, and
    what the cleanup loop leaves. */
module LedgerProps {
  import opened Wrappers
  import opened OrderedMap
  import opened Types
  import opened Planner

  /** The summed amount of the entries of `ios` that name `k`. */
  function Total(ios: seq<IO>, k: string): real
    decreases |ios|
  {
    if ios == [] then 0.0
    else
      var n := |ios| - 1;
      Total(ios[..n], k) + (if ios[n].item == k then ios[n].amount else 0.0)
  }

  /** The arithmetic of one step of the `add` loop: the running value
      grows by `f * a` exactly when the total grows by `a`. */
  lemma Accumulate(g0: real, g: real, gNext: real, f: real, t: real, a: real, total: real)
    requires g == g0 + f * t && gNext == g + f * a && total == t + a
    ensures gNext == g0 + f * total
  {
    assert f * (t + a) == f * t + f * a;
  }

  /** The summed flows `factor * amount` of the entries of `ios` that
      name `k`. */
  function FlowTotal(ios: seq<IO>, k: string, f: real): real
    decreases |ios|
  {
    if ios == [] then 0.0
    else
      var n := |ios| - 1;
      FlowTotal(ios[..n], k, f) + (if ios[n].item == k then Flow(ios[n], f) else 0.0)
  }

  lemma {:induction false} FlowTotalScale(ios: seq<IO>, f: real, k: string)
    ensures FlowTotal(ios, k, f) == f * Total(ios, k)
    decreases |ios|
  {
    if ios != [] {
      var n := |ios| - 1;
      FlowTotalScale(ios[..n], f, k);
      var a := if ios[n].item == k then ios[n].amount else 0.0;
      Accumulate(0.0, FlowTotal(ios[..n], k, f), FlowTotal(ios, k, f), f, Total(ios[..n], k), a, Total(ios, k));
    }
  }

  lemma {:induction false} ApplyFlowsSum(m: Ledger, ios: seq<IO>, f: real, k: string)
    ensures GetOr(ApplyFlows(m, ios, f), k, 0.0) == GetOr(m, k, 0.0) + FlowTotal(ios, k, f)
    decreases |ios|
  {
    if ios != [] {
      var n := |ios| - 1;
      var prev := ApplyFlows(m, ios[..n], f);
      ApplyFlowsSum(m, ios[..n], f, k);
      assert ApplyFlows(m, ios, f) == Add(prev, ios[n].item, Flow(ios[n], f));
      AddGet(prev, ios[n].item, Flow(ios[n], f));
    }
  }

  /** After the `add` loop over `ios` with factor `f`, every key holds its
      old value (or 0) plus `f` times the amounts listed for it. */
  lemma ApplyFlowsNet(m: Ledger, ios: seq<IO>, f: real, k: string)
    ensures GetOr(ApplyFlows(m, ios, f), k, 0.0) == GetOr(m, k, 0.0) + f * Total(ios, k)
  {
    ApplyFlowsSum(m, ios, f, k);
    FlowTotalScale(ios, f, k);
  }

  /** The `add` loop keeps a map free of repeated keys. */
  lemma {:induction false} ApplyFlowsKeepsUnique(m: Ledger, ios: seq<IO>, f: real)
    requires KeysUnique(m)
    ensures KeysUnique(ApplyFlows(m, ios, f))
    decreases |ios|
  {
    if ios != [] {
      var n := |ios| - 1;
      ApplyFlowsKeepsUnique(m, ios[..n], f);
      AddKeepsUnique(ApplyFlows(m, ios[..n], f), ios[n].item, Flow(ios[n], f));
    }
  }

  /** A key that none of `ios` names is not touched by the `add` loop. */
  lemma {:induction false} ApplyFlowsOther(m: Ledger, ios: seq<IO>, f: real, k: string)
    requires forall i :: 0 <= i < |ios| ==> ios[i].item != k
    ensures Get(ApplyFlows(m, ios, f), k) == Get(m, k)
    decreases |ios|
  {
    if ios != [] {
      var n := |ios| - 1;
      ApplyFlowsOther(m, ios[..n], f, k);
      AddGet(ApplyFlows(m, ios[..n], f), ios[n].item, Flow(ios[n], f));
    }
  }

  /** The `add` loop keeps every existing key where it was: the old keys
      are a prefix of the new ones. */
  lemma {:induction false} ApplyFlowsKeys(m: Ledger, ios: seq<IO>, f: real)
    ensures Keys(m) <= Keys(ApplyFlows(m, ios, f))
    decreases |ios|
  {
    if ios != [] {
      var n := |ios| - 1;
      ApplyFlowsKeys(m, ios[..n], f);
      AddKeys(ApplyFlows(m, ios[..n], f), ios[n].item, Flow(ios[n], f));
    }
  }

  /** The cleanup keeps a key exactly when its value is at least 1e-12 in
      magnitude (for a ledger without repeated keys). */
  lemma {:induction false} PruneGet(m: Ledger, k: string)
    requires KeysUnique(m)
    ensures Get(Prune(m), k) == match Get(m, k)
      case None => None
      case Some(v) => if Abs(v) < Eps then None else Some(v)
    decreases |m|
  {
    if m != [] {
      assert KeysUnique(m[1..]) by {
        forall a, b | 0 <= a < b < |m[1..]| ensures m[1..][a].0 != m[1..][b].0 {
          assert m[a + 1].0 != m[b + 1].0;
        }
      }
      PruneGet(m[1..], k);
      var rest := Prune(m[1..]);
      if m[0].0 == k {
        forall i | 0 <= i < |m[1..]| ensures m[1..][i].0 != k {
          assert m[1..][i] == m[i + 1];
        }
        assert Get(m[1..], k) == None;
        if Tiny(m[0]) {
          assert Prune(m) == rest;
        } else {
          assert Prune(m) == [m[0]] + rest;
        }
      } else {
        if Tiny(m[0]) {
          assert Prune(m) == rest;
        } else {
          assert Prune(m) == [m[0]] + rest;
          assert ([m[0]] + rest)[1..] == rest;
        }
      }
    }
  }

  /** What the cleanup leaves of a net figure: nothing when it is below
      1e-12 in magnitude, the figure otherwise. */
  function Settled(v: real): Option<real> {
    if Abs(v) < Eps then None else Some(v)
  }

  /** The cleanup on a map without repeated keys leaves each key what
      `Settled` makes of its figure (0 when absent). */
  lemma PruneSettled(m: Ledger, k: string)
    requires KeysUnique(m)
    ensures Get(Prune(m), k) == Settled(GetOr(m, k, 0.0))
  {
    PruneGet(m, k);
  }

  lemma {:induction false} CreditDebit(d: Ledger, outs: seq<IO>, ins: seq<IO>, runs: real, k: string)
    ensures GetOr(ApplyFlows(ApplyFlows(d, outs, -runs), ins, runs), k, 0.0)
         == GetOr(d, k, 0.0) + FlowTotal(outs, k, -runs) + FlowTotal(ins, k, runs)
  {
    var m1 := ApplyFlows(d, outs, -runs);
    var g1 := GetOr(m1, k, 0.0);
    assert g1 == GetOr(d, k, 0.0) + FlowTotal(outs, k, -runs) by {
      ApplyFlowsSum(d, outs, -runs, k);
    }
    assert GetOr(ApplyFlows(m1, ins, runs), k, 0.0) == g1 + FlowTotal(ins, k, runs) by {
      ApplyFlowsSum(m1, ins, runs, k);
    }
  }

  /** The demand after crediting a recipe's outputs (factor `-runs`) and
      debiting its inputs (factor `runs`), then cleaning up: each key holds
      its old figure plus both flows, or nothing when that is below 1e-12
      in magnitude. */
  lemma RecipeNet(d: Ledger, outs: seq<IO>, ins: seq<IO>, runs: real, k: string)
    requires KeysUnique(d)
    ensures Get(Prune(ApplyFlows(ApplyFlows(d, outs, -runs), ins, runs)), k)
         == Settled(GetOr(d, k, 0.0) + FlowTotal(outs, k, -runs) + FlowTotal(ins, k, runs))
  {
    var m := ApplyFlows(ApplyFlows(d, outs, -runs), ins, runs);
    assert KeysUnique(m) by {
      ApplyFlowsKeepsUnique(d, outs, -runs);
      ApplyFlowsKeepsUnique(ApplyFlows(d, outs, -runs), ins, runs);
    }
    assert Get(Prune(m), k) == Settled(GetOr(m, k, 0.0)) by {
      PruneSettled(m, k);
    }
    assert GetOr(m, k, 0.0) == GetOr(d, k, 0.0) + FlowTotal(outs, k, -runs) + FlowTotal(ins, k, runs) by {
      CreditDebit(d, outs, ins, runs, k);
    }
  }
}
