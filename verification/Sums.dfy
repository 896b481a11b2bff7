/** Sums of the values of a map, the signer's totals over channels. */
module Sums {

  ghost function Sum<K>(m: map<K, nat>): nat
    decreases |m|
  {
    if m == map[] then 0 else
      var k :| k in m;
      m[k] + Sum(m - {k})
  }

  function Get<K>(m: map<K, nat>, k: K): nat {
    if k in m then m[k] else 0
  }

  /** Any key may be taken out first. */
  lemma {:induction false} SumRemove<K>(m: map<K, nat>, k: K)
    requires k in m
    ensures Sum(m) == m[k] + Sum(m - {k})
    decreases |m|
  {
    var j :| j in m && Sum(m) == m[j] + Sum(m - {j});
    if j != k {
      SumRemove(m - {j}, k);
      SumRemove(m - {k}, j);
      assert m - {j} - {k} == m - {k} - {j};
    }
  }

  /** Storing `v` under `k` changes the total by the difference. */
  lemma SumUpdate<K>(m: map<K, nat>, k: K, v: nat)
    ensures Sum(m[k := v]) == Sum(m) + v - Get(m, k)
  {
    SumRemove(m[k := v], k);
    if k in m {
      SumRemove(m, k);
      assert m[k := v] - {k} == m - {k};
    } else {
      assert m[k := v] - {k} == m;
    }
  }

  lemma SumAtLeast<K>(m: map<K, nat>, k: K)
    ensures Get(m, k) <= Sum(m)
  {
    if k in m { SumRemove(m, k); }
  }

  lemma SumTake<K>(m: map<K, nat>, k: K)
    ensures Sum(m) == Get(m, k) + Sum(m - {k})
  {
    if k in m { SumRemove(m, k); } else { assert m - {k} == m; }
  }

  /** Equal but for keys stored with zero. */
  ghost predicate Alike<K(!new)>(m: map<K, nat>, w: map<K, nat>) {
    forall k: K :: Get(m, k) == Get(w, k)
  }

  lemma AlikeRest<K(!new)>(m: map<K, nat>, w: map<K, nat>, k: K)
    requires Alike(m, w)
    ensures Alike(m - {k}, w - {k}) && Get(m, k) == Get(w, k)
  {
    forall j: K ensures Get(m - {k}, j) == Get(w - {k}, j) {
      assert Get(m, j) == Get(w, j);
    }
  }

  lemma {:induction false} SumSame<K(!new)>(m: map<K, nat>, w: map<K, nat>)
    requires Alike(m, w)
    ensures Sum(m) == Sum(w)
    decreases |m|
  {
    if m == map[] {
      AlikeEmpty(w);
    } else {
      var k :| k in m;
      SumTake(m, k);
      SumTake(w, k);
      AlikeRest(m, w, k);
      SumSame(m - {k}, w - {k});
    }
  }

  lemma AlikeEmpty<K(!new)>(w: map<K, nat>)
    requires Alike(map[], w)
    ensures Sum(w) == 0
  {
    forall k | k in w ensures w[k] == 0 {
      assert Get(map[], k) == Get(w, k);
    }
    SumZero(w);
  }

  lemma {:induction false} SumZero<K>(m: map<K, nat>)
    requires forall k :: k in m ==> m[k] == 0
    ensures Sum(m) == 0
    decreases |m|
  {
    if m != map[] {
      var k :| k in m;
      SumRemove(m, k);
      SumZero(m - {k});
    }
  }

  /** Where two maps differ, key by key, by what two others say, so do their sums. */
  lemma {:induction false} SumShift<K>(a: map<K, nat>, out: map<K, nat>, b: map<K, nat>, back: map<K, nat>)
    requires a.Keys == out.Keys == b.Keys == back.Keys
    requires forall k :: k in a ==> a[k] + out[k] == b[k] + back[k]
    ensures Sum(a) + Sum(out) == Sum(b) + Sum(back)
    decreases |a|
  {
    if a == map[] {
      assert out == map[] && b == map[] && back == map[];
    } else {
      var k :| k in a;
      SumRemove(a, k);
      SumRemove(out, k);
      SumRemove(b, k);
      SumRemove(back, k);
      SumShift(a - {k}, out - {k}, b - {k}, back - {k});
    }
  }

  lemma {:induction false} SumOrdered<K>(a: map<K, nat>, b: map<K, nat>)
    requires a.Keys == b.Keys && forall k :: k in a ==> a[k] <= b[k]
    ensures Sum(a) <= Sum(b)
    decreases |a|
  {
    if a != map[] {
      var k :| k in a;
      SumRemove(a, k);
      SumRemove(b, k);
      SumOrdered(a - {k}, b - {k});
    }
  }

  /** The total, computed by taking the entries in any order. */
  method Total<K>(m: map<K, nat>) returns (total: nat)
    ensures total == Sum(m)
  {
    total := 0;
    var rest := m;
    while rest != map[]
      invariant total + Sum(rest) == Sum(m)
      decreases |rest|
    {
      var k :| k in rest;
      SumRemove(rest, k);
      total := total + rest[k];
      rest := rest - {k};
    }
  }
}
