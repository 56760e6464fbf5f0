/** A JavaScript `Map` as an insertion-ordered association list.
    `Set` on a key that is present overwrites its value where it stands;
    `Set` on an absent key appends it; `Delete` removes the key, so a key
    that is set again afterwards goes to the end. Iteration order is the
    order of the sequence. */
module OrderedMap {
  import opened Wrappers

  type Assoc<V> = seq<(string, V)>

  /** `map.has(k)` */
  predicate Has<V>(m: Assoc<V>, k: string) {
    exists i :: 0 <= i < |m| && m[i].0 == k
  }

  /** The invariant every JavaScript Map satisfies: no key twice. */
  predicate KeysUnique<V>(m: Assoc<V>) {
    forall i, j :: 0 <= i < j < |m| ==> m[i].0 != m[j].0
  }

  /** `map.get(k)`: the value of the first entry under `k`, `None` for
      `undefined`. */
  function Get<V>(m: Assoc<V>, k: string): (r: Option<V>)
    ensures r.None? <==> !Has(m, k)
    ensures r.Some? ==> (k, r.value) in m
  {
    if m == [] then None
    else if m[0].0 == k then Some(m[0].1)
    else
      var r := Get(m[1..], k);
      assert Has(m, k) ==> Has(m[1..], k) by {
        if Has(m, k) {
          var i :| 0 <= i < |m| && m[i].0 == k;
          assert m[1..][i - 1].0 == k;
        }
      }
      r
  }

  /** `map.get(k) ?? d` */
  function GetOr<V>(m: Assoc<V>, k: string, d: V): V {
    Get(m, k).GetOr(d)
  }

  /** `map.set(k, v)` */
  function Set<V>(m: Assoc<V>, k: string, v: V): (r: Assoc<V>)
    ensures Has(m, k) ==> |r| == |m| && forall i :: 0 <= i < |m| ==> r[i] == (if m[i].0 == k then (k, v) else m[i])
    ensures !Has(m, k) ==> r == m + [(k, v)]
  {
    if Has(m, k) then seq(|m|, i requires 0 <= i < |m| => if m[i].0 == k then (k, v) else m[i])
    else m + [(k, v)]
  }

  /** `map.delete(k)` */
  function Delete<V>(m: Assoc<V>, k: string): (r: Assoc<V>)
    ensures !Has(r, k)
    ensures forall i :: 0 <= i < |r| ==> r[i] in m && r[i].0 != k
    ensures forall i :: 0 <= i < |m| && m[i].0 != k ==> m[i] in r
    ensures |r| <= |m|
  {
    if m == [] then []
    else if m[0].0 == k then Delete(m[1..], k)
    else [m[0]] + Delete(m[1..], k)
  }

  // ----- What a lookup sees after an update -----

  lemma GetSet<V>(m: Assoc<V>, k: string, v: V, k': string)
    ensures Get(Set(m, k, v), k') == if k' == k then Some(v) else Get(m, k')
  {
    if Has(m, k) {
      SetInPlaceGet(m, k, v, k');
    } else {
      GetAppend(m, k, v, k');
    }
  }

  lemma {:induction false} SetInPlaceGet<V>(m: Assoc<V>, k: string, v: V, k': string)
    requires Has(m, k)
    ensures Get(Set(m, k, v), k') == if k' == k then Some(v) else Get(m, k')
    decreases |m|
  {
    var r := Set(m, k, v);
    if m[0].0 == k {
      assert r[0] == (k, v);
      if k' != k {
        assert r[1..] == m[1..] || Has(m[1..], k);
        if Has(m[1..], k) {
          SetInPlaceGet(m[1..], k, v, k');
          assert r[1..] == Set(m[1..], k, v);
        }
      }
    } else {
      assert Has(m[1..], k) by {
        var i :| 0 <= i < |m| && m[i].0 == k;
        assert m[1..][i - 1].0 == k;
      }
      SetInPlaceGet(m[1..], k, v, k');
      assert r[1..] == Set(m[1..], k, v);
    }
  }

  lemma {:induction false} GetAppend<V>(m: Assoc<V>, k: string, v: V, k': string)
    requires !Has(m, k)
    ensures Get(m + [(k, v)], k') == if k' == k then Some(v) else Get(m, k')
    decreases |m|
  {
    if m != [] {
      assert (m + [(k, v)])[1..] == m[1..] + [(k, v)];
      forall i | 0 <= i < |m[1..]| ensures m[1..][i].0 != k {
        assert m[1..][i] == m[i + 1];
      }
      GetAppend(m[1..], k, v, k');
    }
  }

  lemma GetDelete<V>(m: Assoc<V>, k: string, k': string)
    ensures Get(Delete(m, k), k') == if k' == k then None else Get(m, k')
    decreases |m|
  {
    if m != [] && m[0].0 != k {
      GetDelete(m[1..], k, k');
    } else if m != [] {
      GetDelete(m[1..], k, k');
    }
  }

  /** In a map without repeated keys every entry is what `get` returns. */
  lemma {:induction false} GetUnique<V>(m: Assoc<V>, i: nat)
    requires KeysUnique(m) && i < |m|
    ensures Get(m, m[i].0) == Some(m[i].1)
  {
    if i > 0 {
      assert m[0].0 != m[i].0;
      assert KeysUnique(m[1..]) by {
        forall a, b | 0 <= a < b < |m[1..]| ensures m[1..][a].0 != m[1..][b].0 {
          assert m[a + 1].0 != m[b + 1].0;
        }
      }
      GetUnique(m[1..], i - 1);
    }
  }

  // ----- Key order -----

  /** The keys in iteration order. */
  function Keys<V>(m: Assoc<V>): seq<string> {
    seq(|m|, i requires 0 <= i < |m| => m[i].0)
  }

  lemma HasKeys<V>(m: Assoc<V>, k: string)
    ensures Has(m, k) <==> k in Keys(m)
  {
    if k in Keys(m) {
      var i :| 0 <= i < |Keys(m)| && Keys(m)[i] == k;
      assert m[i].0 == k;
    }
    if Has(m, k) {
      var i :| 0 <= i < |m| && m[i].0 == k;
      assert Keys(m)[i] == k;
    }
  }

  /** The keys left after removing `k`, in their old order. */
  function Without(ks: seq<string>, k: string): (r: seq<string>)
    ensures forall x :: x in r <==> x in ks && x != k
  {
    if ks == [] then []
    else if ks[0] == k then Without(ks[1..], k)
    else [ks[0]] + Without(ks[1..], k)
  }

  /** `set` keeps the position of a present key and appends an absent one. */
  lemma SetKeys<V>(m: Assoc<V>, k: string, v: V)
    ensures Keys(Set(m, k, v)) == if Has(m, k) then Keys(m) else Keys(m) + [k]
  {
  }

  lemma {:induction false} DeleteKeys<V>(m: Assoc<V>, k: string)
    ensures Keys(Delete(m, k)) == Without(Keys(m), k)
    decreases |m|
  {
    if m != [] {
      DeleteKeys(m[1..], k);
      assert Keys(m)[1..] == Keys(m[1..]);
      if m[0].0 != k {
        assert Keys([m[0]] + Delete(m[1..], k)) == [m[0].0] + Keys(Delete(m[1..], k));
      }
    }
  }

  /** A key deleted and then set again is iterated last. */
  lemma ReAddGoesLast<V>(m: Assoc<V>, k: string, v: V)
    ensures Keys(Set(Delete(m, k), k, v)) == Without(Keys(m), k) + [k]
  {
    DeleteKeys(m, k);
    SetKeys(Delete(m, k), k, v);
  }

  /** `set` and `delete` keep a map free of repeated keys. */
  lemma SetKeepsUnique<V>(m: Assoc<V>, k: string, v: V)
    requires KeysUnique(m)
    ensures KeysUnique(Set(m, k, v))
  {
  }

  lemma {:induction false} DeleteKeepsUnique<V>(m: Assoc<V>, k: string)
    requires KeysUnique(m)
    ensures KeysUnique(Delete(m, k))
    decreases |m|
  {
    if m != [] {
      assert KeysUnique(m[1..]) by {
        forall a, b | 0 <= a < b < |m[1..]| ensures m[1..][a].0 != m[1..][b].0 {
          assert m[a + 1].0 != m[b + 1].0;
        }
      }
      DeleteKeepsUnique(m[1..], k);
      if m[0].0 != k {
        var d := Delete(m[1..], k);
        forall j | 0 <= j < |d| ensures d[j].0 != m[0].0 {
          assert d[j] in m[1..];
        }
      }
    }
  }
}
