/**
 * Tallies by key, as the command line's listing and the analyzer's statistics keep
 * them: a weight per entry, the weight of one key, the dictionary that accumulates
 * `d[k] = d.get(k, 0) + w`, and the fact that summing the per-key totals over all keys
 * gives back the grand total.
 */
module Tally {

  /** The summed weight of the entries with key `k`. */
  function WeightOf<K(==)>(xs: seq<(K, int)>, k: K): int
  {
    if xs == [] then 0
    else WeightOf(xs[..|xs| - 1], k) + (if xs[|xs| - 1].0 == k then xs[|xs| - 1].1 else 0)
  }

  /** The summed weight of all entries. */
  function TotalWeight<K>(xs: seq<(K, int)>): int
  {
    if xs == [] then 0 else TotalWeight(xs[..|xs| - 1]) + xs[|xs| - 1].1
  }

  function KeysOf<K>(xs: seq<(K, int)>): set<K>
  {
    set x | x in xs :: x.0
  }

  predicate Distinct<K(==)>(ks: seq<K>)
  {
    forall i, j :: 0 <= i < j < |ks| ==> ks[i] != ks[j]
  }

  /** The per-key weights summed over the keys `ks`, in order. */
  function WeightOver<K(==)>(xs: seq<(K, int)>, ks: seq<K>): int
  {
    if ks == [] then 0 else WeightOver(xs, ks[..|ks| - 1]) + WeightOf(xs, ks[|ks| - 1])
  }

  /** A key without entries weighs nothing. */
  lemma {:induction false} WeightOfAbsent<K>(xs: seq<(K, int)>, k: K)
    requires k !in KeysOf(xs)
    ensures WeightOf(xs, k) == 0
  {
    if xs != [] {
      assert xs[..|xs| - 1][0..] == xs[..|xs| - 1];
      assert KeysOf(xs[..|xs| - 1]) <= KeysOf(xs) by {
        forall x | x in xs[..|xs| - 1] ensures x in xs {
        }
      }
      WeightOfAbsent(xs[..|xs| - 1], k);
      assert xs[|xs| - 1] in xs;
    }
  }

  /** One more entry adds its weight to exactly one of the distinct keys, if it is among them. */
  lemma {:induction false} WeightOverSnoc<K>(xs: seq<(K, int)>, x: (K, int), ks: seq<K>)
    requires Distinct(ks)
    ensures WeightOver(xs + [x], ks) == WeightOver(xs, ks) + (if x.0 in ks then x.1 else 0)
  {
    if ks != [] {
      var init := ks[..|ks| - 1];
      assert Distinct(init);
      WeightOverSnoc(xs, x, init);
      assert (xs + [x])[..|xs + [x]| - 1] == xs;
      var last := ks[|ks| - 1];
      assert x.0 in ks <==> x.0 in init || x.0 == last by {
        assert ks == init + [last];
      }
      assert x.0 == last ==> x.0 !in init;
    }
  }

  /**
   * Summing the per-key weights over distinct keys that cover every entry gives the
   * grand total: grouping neither loses nor counts twice.
   */
  lemma {:induction false} WeightOverAllKeys<K>(xs: seq<(K, int)>, ks: seq<K>)
    requires Distinct(ks) && KeysOf(xs) <= set k | k in ks
    ensures WeightOver(xs, ks) == TotalWeight(xs)
  {
    if xs == [] {
      WeightOverEmpty(ks);
    } else {
      var init := xs[..|xs| - 1];
      var x := xs[|xs| - 1];
      assert xs == init + [x];
      assert KeysOf(init) <= KeysOf(xs) by {
        forall y | y in init ensures y in xs {
        }
      }
      WeightOverAllKeys(init, ks);
      WeightOverSnoc(init, x, ks);
      assert x.0 in KeysOf(xs);
    }
  }

  lemma {:induction false} WeightOverEmpty<K>(ks: seq<K>)
    ensures WeightOver([], ks) == 0
  {
    if ks != [] {
      WeightOverEmpty(ks[..|ks| - 1]);
    }
  }

  /** Distinct keys are as many as the set they make up. */
  lemma {:induction false} DistinctCard<K>(ks: seq<K>)
    requires Distinct(ks)
    ensures |set k | k in ks| == |ks|
  {
    if ks != [] {
      var init := ks[..|ks| - 1];
      DistinctCard(init);
      assert (set k | k in ks) == (set k | k in init) + {ks[|ks| - 1]} by {
        assert ks == init + [ks[|ks| - 1]];
      }
    }
  }

  /** `d[k] = d.get(k, 0) + w` for every entry `(k, w)` in order. */
  function TallyMap<K(==)>(xs: seq<(K, int)>): map<K, int>
  {
    if xs == [] then map[]
    else
      var m := TallyMap(xs[..|xs| - 1]);
      var k := xs[|xs| - 1].0;
      m[k := (if k in m then m[k] else 0) + xs[|xs| - 1].1]
  }

  /** The tally holds exactly the keys of the entries, each with its summed weight. */
  lemma {:induction false} TallyMapWeights<K>(xs: seq<(K, int)>)
    ensures TallyMap(xs).Keys == KeysOf(xs)
    ensures forall k :: k in TallyMap(xs) ==> TallyMap(xs)[k] == WeightOf(xs, k)
  {
    if xs != [] {
      var init := xs[..|xs| - 1];
      var x := xs[|xs| - 1];
      TallyMapWeights(init);
      assert xs == init + [x];
      assert KeysOf(xs) == KeysOf(init) + {x.0};
      if x.0 !in TallyMap(init) {
        WeightOfAbsent(init, x.0);
      }
    }
  }

  /** One entry of weight 1 per label: counting occurrences. */
  function Ones<K>(labels: seq<K>): (xs: seq<(K, int)>)
    ensures |xs| == |labels|
    ensures forall i :: 0 <= i < |xs| ==> xs[i] == (labels[i], 1)
  {
    seq(|labels|, i requires 0 <= i < |labels| => (labels[i], 1))
  }

  lemma {:induction false} OnesTotal<K>(labels: seq<K>)
    ensures TotalWeight(Ones(labels)) == |labels|
  {
    if labels != [] {
      OnesTotal(labels[..|labels| - 1]);
      assert Ones(labels)[..|labels| - 1] == Ones(labels[..|labels| - 1]);
    }
  }

  lemma OnesKeys<K>(labels: seq<K>)
    ensures KeysOf(Ones(labels)) == set l | l in labels
  {
    forall l | l in labels ensures l in KeysOf(Ones(labels)) {
      var i :| 0 <= i < |labels| && labels[i] == l;
      assert Ones(labels)[i] == (l, 1);
    }
  }

  lemma {:induction false} DistinctAtMostOnce<K>(ks: seq<K>, k: K)
    requires Distinct(ks)
    ensures multiset(ks)[k] <= 1
  {
    if ks != [] {
      var init := ks[..|ks| - 1];
      DistinctAtMostOnce(init, k);
      assert ks == init + [ks[|ks| - 1]];
      assert ks[|ks| - 1] == k ==> k !in init;
    }
  }

  /** Reordering distinct keys keeps them distinct. */
  lemma DistinctPermutation<K>(a: seq<K>, b: seq<K>)
    requires Distinct(a) && multiset(a) == multiset(b)
    ensures Distinct(b)
  {
    forall i, j | 0 <= i < j < |b| ensures b[i] != b[j] {
      if b[i] == b[j] {
        var k := b[i];
        assert b == b[..j] + b[j..];
        assert b[i] in b[..j];
        assert b[j] in b[j..];
        assert multiset(b)[k] == multiset(b[..j])[k] + multiset(b[j..])[k];
        DistinctAtMostOnce(a, k);
        assert false;
      }
    }
  }

  /** `d[k] = d.get(k, 0) + w`. */
  function Add<K(==)>(m: map<K, int>, k: K, w: int): map<K, int>
  {
    m[k := (if k in m then m[k] else 0) + w]
  }

  /** One more entry is one more `d[k] = d.get(k, 0) + w`. */
  lemma TallyMapSnoc<K>(xs: seq<(K, int)>, x: (K, int))
    ensures TallyMap(xs + [x]) == Add(TallyMap(xs), x.0, x.1)
  {
    assert (xs + [x])[..|xs|] == xs;
  }

  /** One more label is one more entry of weight 1. */
  lemma OnesSnoc<K>(labels: seq<K>, l: K)
    ensures Ones(labels + [l]) == Ones(labels) + [(l, 1)]
  {
  }

  /** The values of `m` at the keys `ks`, summed in order. */
  function MapSum<K>(m: map<K, int>, ks: seq<K>): int
    requires forall k :: k in ks ==> k in m
  {
    if ks == [] then 0 else MapSum(m, ks[..|ks| - 1]) + m[ks[|ks| - 1]]
  }

  /** Summing a tally's values over all its keys, in any order, gives the total weight. */
  lemma {:induction false} TallySum<K>(xs: seq<(K, int)>, ks: seq<K>)
    requires Distinct(ks) && (set k | k in ks) == KeysOf(xs)
    ensures forall k :: k in ks ==> k in TallyMap(xs)
    ensures MapSum(TallyMap(xs), ks) == TotalWeight(xs)
  {
    TallyMapWeights(xs);
    MapSumWeights(xs, ks);
    WeightOverAllKeys(xs, ks);
  }

  lemma {:induction false} MapSumWeights<K>(xs: seq<(K, int)>, ks: seq<K>)
    requires (set k | k in ks) <= KeysOf(xs)
    ensures forall k :: k in ks ==> k in TallyMap(xs)
    ensures MapSum(TallyMap(xs), ks) == WeightOver(xs, ks)
  {
    TallyMapWeights(xs);
    if ks != [] {
      var init := ks[..|ks| - 1];
      assert (set k | k in init) <= (set k | k in ks) by {
        forall k | k in init ensures k in ks {
        }
      }
      MapSumWeights(xs, init);
      assert ks[|ks| - 1] in ks;
    }
  }

  /** Counting labels gives each label that occurs the number of its occurrences, and no other key. */
  lemma {:induction false} OccurrencesCounted<K>(labels: seq<K>, l: K)
    ensures l in TallyMap(Ones(labels)) <==> l in labels
    ensures l in labels ==> TallyMap(Ones(labels))[l] == multiset(labels)[l]
  {
    if labels != [] {
      var init, last := labels[..|labels| - 1], labels[|labels| - 1];
      OccurrencesCounted(init, l);
      assert labels == init + [last];
      TallyOnesSnoc(init, last);
      if l !in init {
        assert multiset(init)[l] == 0;
      }
    }
  }

  /** Counting one more label is `d[l] = d.get(l, 0) + 1`. */
  lemma TallyOnesSnoc<K>(labels: seq<K>, l: K)
    ensures TallyMap(Ones(labels + [l])) == Add(TallyMap(Ones(labels)), l, 1)
  {
    OnesSnoc(labels, l);
    TallyMapSnoc(Ones(labels), (l, 1));
  }

  /** Counting the labels `ls` on top of the counts `m`. */
  function AddAll<K(==)>(m: map<K, int>, ls: seq<K>): map<K, int>
  {
    if ls == [] then m else Add(AddAll(m, ls[..|ls| - 1]), ls[|ls| - 1], 1)
  }

  /** Counting more labels on top of a tally is the tally of all of them. */
  lemma {:induction false} AddAllTally<K>(seen: seq<K>, ls: seq<K>)
    ensures AddAll(TallyMap(Ones(seen)), ls) == TallyMap(Ones(seen + ls))
  {
    if ls == [] {
      assert seen + ls == seen;
    } else {
      var init := ls[..|ls| - 1];
      AddAllTally(seen, init);
      assert seen + ls == (seen + init) + [ls[|ls| - 1]];
      TallyOnesSnoc(seen + init, ls[|ls| - 1]);
    }
  }
}
