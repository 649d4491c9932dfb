/** Sums over the values of a map keyed by strings: the total of a token
    frequency table, and the total of a prior table. */
module Sums {

  /** Sum of m's counts over the keys in `keys`. */
  ghost function SumCounts(m: map<string, nat>, keys: set<string>): nat
    requires keys <= m.Keys
    decreases keys
  {
    if keys == {} then 0 else var k :| k in keys; m[k] + SumCounts(m, keys - {k})
  }

  /** Sum of m's probabilities over the keys in `keys`. */
  ghost function SumProbabilities(m: map<string, real>, keys: set<string>): real
    requires keys <= m.Keys
    decreases keys
  {
    if keys == {} then 0.0 else var k :| k in keys; m[k] + SumProbabilities(m, keys - {k})
  }

  /** Total of the counts stored in a frequency table. */
  ghost function TotalCount(m: map<string, nat>): nat
  {
    SumCounts(m, m.Keys)
  }

  /** Total of the probabilities stored in a prior table. */
  ghost function TotalProbability(m: map<string, real>): real
  {
    SumProbabilities(m, m.Keys)
  }

  /** Whichever key the definition picks first, the sum splits off any key. */
  lemma {:induction false} SumCountsRemove(m: map<string, nat>, keys: set<string>, x: string)
    requires keys <= m.Keys && x in keys
    ensures SumCounts(m, keys) == m[x] + SumCounts(m, keys - {x})
    decreases keys
  {
    var y :| y in keys && SumCounts(m, keys) == m[y] + SumCounts(m, keys - {y});
    if y != x {
      SumCountsRemove(m, keys - {y}, x);
      SumCountsRemove(m, keys - {x}, y);
      assert keys - {y} - {x} == keys - {x} - {y};
    }
  }

  lemma {:induction false} SumProbabilitiesRemove(m: map<string, real>, keys: set<string>, x: string)
    requires keys <= m.Keys && x in keys
    ensures SumProbabilities(m, keys) == m[x] + SumProbabilities(m, keys - {x})
    decreases keys
  {
    var y :| y in keys && SumProbabilities(m, keys) == m[y] + SumProbabilities(m, keys - {y});
    if y != x {
      SumProbabilitiesRemove(m, keys - {y}, x);
      SumProbabilitiesRemove(m, keys - {x}, y);
      assert keys - {y} - {x} == keys - {x} - {y};
    }
  }

  /** The sum over some keys only sees the values stored under those keys. */
  lemma {:induction false} SumCountsAgree(m: map<string, nat>, m': map<string, nat>, keys: set<string>)
    requires keys <= m.Keys && keys <= m'.Keys
    requires forall k :: k in keys ==> m[k] == m'[k]
    ensures SumCounts(m, keys) == SumCounts(m', keys)
    decreases keys
  {
    if keys != {} {
      var x :| x in keys;
      SumCountsRemove(m, keys, x);
      SumCountsRemove(m', keys, x);
      SumCountsAgree(m, m', keys - {x});
    }
  }

  /** Storing value v under key k adds v to the total, less what k held before. */
  lemma TotalCountUpdate(m: map<string, nat>, k: string, v: nat)
    ensures TotalCount(m[k := v]) == TotalCount(m) + v - (if k in m then m[k] else 0)
  {
    var m' := m[k := v];
    SumCountsRemove(m', m'.Keys, k);
    SumCountsAgree(m, m', m.Keys - {k});
    if k in m {
      SumCountsRemove(m, m.Keys, k);
      assert m'.Keys - {k} == m.Keys - {k};
    } else {
      assert m'.Keys - {k} == m.Keys;
      assert m.Keys - {k} == m.Keys;
    }
  }

  lemma AddRatios(a: real, b: real, d: real)
    requires d > 0.0
    ensures a / d + b / d == (a + b) / d
  {
  }

  lemma {:induction false} SumOfRatios(m: map<string, nat>, r: map<string, real>, d: real, keys: set<string>)
    requires d > 0.0 && keys <= m.Keys && keys <= r.Keys
    requires forall k :: k in keys ==> r[k] == m[k] as real / d
    ensures SumProbabilities(r, keys) == SumCounts(m, keys) as real / d
    decreases keys
  {
    if keys != {} {
      var x :| x in keys;
      SumCountsRemove(m, keys, x);
      SumProbabilitiesRemove(r, keys, x);
      SumOfRatios(m, r, d, keys - {x});
      AddRatios(m[x] as real, SumCounts(m, keys - {x}) as real, d);
    }
  }

  /** Dividing every value of a count table by the same positive n divides
      the total by n. */
  lemma TotalOfRatios(m: map<string, nat>, n: nat)
    requires n > 0
    ensures TotalProbability(map k | k in m :: m[k] as real / n as real)
         == TotalCount(m) as real / n as real
  {
    var r := map k | k in m :: m[k] as real / n as real;
    assert r.Keys == m.Keys;
    SumOfRatios(m, r, n as real, m.Keys);
  }
}
