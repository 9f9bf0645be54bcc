/** Counting occurrences in a list: the arithmetic behind the GPU slot maps. */
module Tally {

  /** A map read as a counter: absent keys count zero. */
  function At<T>(m: map<T, int>, x: T): int {
    if x in m then m[x] else 0
  }

  /** One more for each listed element, in order. */
  function Capacity<T>(l: seq<T>): map<T, int> {
    if l == [] then map[]
    else
      var m, last := Capacity(l[..|l| - 1]), l[|l| - 1];
      m[last := At(m, last) + 1]
  }

  /** First occurrences, in order. */
  function Dedup<T(==)>(l: seq<T>): seq<T> {
    if l == [] then []
    else
      var init, last := l[..|l| - 1], l[|l| - 1];
      Dedup(init) + if last in init then [] else [last]
  }

  /** The smallest multiplicity among the elements at positions below `k`. */
  function LeastBelow<T(==)>(l: seq<T>, k: nat): (m: nat)
    requires 0 < k <= |l|
    ensures forall i :: 0 <= i < k ==> m <= multiset(l)[l[i]]
    ensures exists i :: 0 <= i < k && m == multiset(l)[l[i]]
  {
    var here := multiset(l)[l[k - 1]];
    if k == 1 then here
    else
      var rest := LeastBelow(l, k - 1);
      if here <= rest then here else rest
  }

  predicate Distinct<T(==)>(l: seq<T>) {
    forall i, j :: 0 <= i < j < |l| ==> l[i] != l[j]
  }

  function FirstIndex<T(==)>(l: seq<T>, x: T): (i: nat)
    requires x in l
    ensures i < |l| && l[i] == x && x !in l[..i]
  {
    if l[0] == x then 0
    else
      var i := FirstIndex(l[1..], x);
      assert l[..i + 1] == [l[0]] + l[1..][..i];
      i + 1
  }

  /** `total[k] + m[k]`, key by key. */
  function Plus<T>(total: map<T, int>, m: map<T, int>): map<T, int> {
    map k | k in total.Keys + m.Keys :: At(total, k) + At(m, k)
  }

  /** The counter holds the multiplicity of every element, and nothing else. */
  lemma {:induction false} CapacityIsMultiplicity<T>(l: seq<T>)
    ensures forall x :: x in Capacity(l) <==> x in l
    ensures forall x :: x in l ==> Capacity(l)[x] == multiset(l)[x]
  {
    if l == [] {
    } else {
      var init, last := l[..|l| - 1], l[|l| - 1];
      CapacityIsMultiplicity(init);
      assert l == init + [last];
      assert multiset(l) == multiset(init) + multiset{last};
      assert last !in init ==> multiset(init)[last] == 0;
    }
  }

  lemma CapacitySnoc<T>(l: seq<T>, x: T)
    ensures Capacity(l + [x]) == Capacity(l)[x := At(Capacity(l), x) + 1]
  {
    assert (l + [x])[..|l|] == l;
  }

  lemma DedupSnoc<T>(l: seq<T>, x: T)
    ensures Dedup(l + [x]) == Dedup(l) + if x in l then [] else [x]
  {
    assert (l + [x])[..|l|] == l;
  }

  lemma CapacityEmpty<T>(l: seq<T>)
    ensures Capacity(l) == map[] <==> l == []
  {
    CapacityIsMultiplicity(l);
    if l != [] {
      assert l[0] in l;
    }
  }

  lemma {:induction false} FirstIndexSnoc<T>(l: seq<T>, x: T, y: T)
    requires y in l
    ensures y in l + [x]
    ensures FirstIndex(l + [x], y) == FirstIndex(l, y)
  {
    if l[0] == y {
    } else {
      FirstIndexSnoc(l[1..], x, y);
      assert (l + [x])[1..] == l[1..] + [x];
    }
  }

  /** Deduplication keeps every element exactly once, in the order of first occurrence. */
  lemma {:induction false} DedupFirstOccurrences<T>(l: seq<T>)
    ensures Distinct(Dedup(l))
    ensures forall x :: x in Dedup(l) <==> x in l
    ensures forall i :: 0 <= i < |Dedup(l)| ==> Dedup(l)[i] in l
    ensures forall i, j :: 0 <= i < j < |Dedup(l)| ==> FirstIndex(l, Dedup(l)[i]) < FirstIndex(l, Dedup(l)[j])
  {
    if l == [] {
    } else {
      var init, last := l[..|l| - 1], l[|l| - 1];
      assert l == init + [last];
      DedupFirstOccurrences(init);
      var d := Dedup(init);
      forall k | 0 <= k < |d| ensures d[k] in init && FirstIndex(l, d[k]) == FirstIndex(init, d[k]) {
        FirstIndexSnoc(init, last, d[k]);
      }
    }
  }

  lemma {:induction false} DistinctCapacity<T>(l: seq<T>)
    requires Distinct(l)
    ensures forall x :: x in l ==> multiset(l)[x] == 1
  {
    if l == [] {
    } else {
      var init, last := l[..|l| - 1], l[|l| - 1];
      assert l == init + [last];
      DistinctCapacity(init);
      assert multiset(l) == multiset(init) + multiset{last};
      assert last !in init;
    }
  }

  function SumOver<T>(m: map<T, int>, keys: seq<T>): int
    requires forall k :: k in keys ==> k in m
  {
    if keys == [] then 0 else SumOver(m, keys[..|keys| - 1]) + m[keys[|keys| - 1]]
  }

  lemma {:induction false} SumBump<T>(m: map<T, int>, m': map<T, int>, keys: seq<T>, hot: T)
    requires Distinct(keys)
    requires forall k :: k in keys ==> k in m && k in m' && m'[k] == m[k] + if k == hot then 1 else 0
    ensures SumOver(m', keys) == SumOver(m, keys) + if hot in keys then 1 else 0
  {
    if keys == [] {
    } else {
      var init, last := keys[..|keys| - 1], keys[|keys| - 1];
      assert keys == init + [last];
      SumBump(m, m', init, hot);
      assert last !in init;
    }
  }

  lemma SumSnoc<T>(m: map<T, int>, keys: seq<T>, x: T)
    requires x in m && forall k :: k in keys ==> k in m
    ensures SumOver(m, keys + [x]) == SumOver(m, keys) + m[x]
  {
    assert (keys + [x])[..|keys|] == keys;
  }

  lemma CapacityStep<T>(init: seq<T>, last: T)
    ensures forall k :: k in Dedup(init) ==> k in Capacity(init) && k in Capacity(init + [last])
    ensures SumOver(Capacity(init + [last]), Dedup(init))
         == SumOver(Capacity(init), Dedup(init)) + if last in init then 1 else 0
  {
    DedupFirstOccurrences(init);
    CapacityIsMultiplicity(init);
    CapacitySnoc(init, last);
    assert forall k :: k in Dedup(init) ==> k in init;
    SumBump(Capacity(init), Capacity(init + [last]), Dedup(init), last);
  }

  /** The multiplicities of the distinct elements add up to the length of the list. */
  lemma {:induction false} CapacitiesAddUp<T>(l: seq<T>)
    ensures forall k :: k in Dedup(l) ==> k in Capacity(l)
    ensures SumOver(Capacity(l), Dedup(l)) == |l|
  {
    if l == [] {
    } else {
      var init, last := l[..|l| - 1], l[|l| - 1];
      assert l == init + [last];
      CapacitiesAddUp(init);
      CapacityStep(init, last);
      CapacitySnoc(init, last);
      DedupSnoc(init, last);
      if last !in init {
        CapacityIsMultiplicity(init);
        SumSnoc(Capacity(l), Dedup(init), last);
      } else {
        assert Dedup(l) == Dedup(init);
      }
    }
  }
}
