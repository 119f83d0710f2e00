/** Counting with a `defaultdict(int)` whose keys keep their insertion order,
    and ranking its items with a stable `sorted(..., reverse=True)`. */
module Ranking {
  import opened Py
  import opened Text

  /** The keys in the order they were first counted, and their counts. */
  datatype Tally<K(==)> = Tally(keys: seq<K>, counts: map<K, nat>)

  predicate Distinct<K(==)>(s: seq<K>) {
    forall i, j :: 0 <= i < j < |s| ==> s[i] != s[j]
  }

  /** The keys are listed once each, and they are exactly the counted keys. */
  predicate Valid<K(==)>(t: Tally<K>) {
    Distinct(t.keys) && (forall k <- t.keys :: k in t.counts) && (forall k <- t.counts :: k in t.keys)
  }

  function Empty<K(==)>(): (t: Tally<K>)
    ensures Valid(t) && t.keys == []
  {
    Tally([], map[])
  }

  /** `counts[k]` of a `defaultdict(int)`: 0 for a key never counted. */
  function CountOf<K(==)>(t: Tally<K>, k: K): nat {
    if k in t.counts then t.counts[k] else 0
  }

  /** `counts[k] += 1`: a new key is appended to the key order. */
  function Bump<K(==,!new)>(t: Tally<K>, k: K): (r: Tally<K>)
    requires Valid(t)
    ensures Valid(r)
    ensures CountOf(r, k) == CountOf(t, k) + 1
    ensures forall j :: j != k ==> CountOf(r, j) == CountOf(t, j)
    ensures t.keys <= r.keys && |r.keys| <= |t.keys| + 1
  {
    if k in t.counts then Tally(t.keys, t.counts[k := t.counts[k] + 1])
    else Tally(t.keys + [k], t.counts[k := 1])
  }

  /** The sum of the counts of the listed keys. */
  function SumCounts<K(==)>(keys: seq<K>, counts: map<K, nat>): nat
    requires forall k <- keys :: k in counts
  {
    if keys == [] then 0 else SumCounts(keys[..|keys| - 1], counts) + counts[keys[|keys| - 1]]
  }

  function Total<K(==)>(t: Tally<K>): nat
    requires Valid(t)
  {
    SumCounts(t.keys, t.counts)
  }

  lemma {:induction false} SumOutside<K>(keys: seq<K>, counts: map<K, nat>, k: K, v: nat)
    requires forall j <- keys :: j in counts
    requires k !in keys
    ensures SumCounts(keys, counts[k := v]) == SumCounts(keys, counts)
  {
    if keys != [] {
      SumOutside(keys[..|keys| - 1], counts, k, v);
    }
  }

  lemma {:induction false} SumIncrement<K>(keys: seq<K>, counts: map<K, nat>, k: K)
    requires forall j <- keys :: j in counts
    requires Distinct(keys) && k in keys && k in counts
    ensures SumCounts(keys, counts[k := counts[k] + 1]) == SumCounts(keys, counts) + 1
  {
    var front := keys[..|keys| - 1];
    if keys[|keys| - 1] == k {
      assert k !in front;
      SumOutside(front, counts, k, counts[k] + 1);
    } else {
      assert k in front;
      SumIncrement(front, counts, k);
    }
  }

  /** Every `+= 1` adds exactly one to the total of the counts. */
  lemma BumpTotal<K(!new)>(t: Tally<K>, k: K)
    requires Valid(t)
    ensures Total(Bump(t, k)) == Total(t) + 1
  {
    if k in t.counts {
      SumIncrement(t.keys, t.counts, k);
    } else {
      var r := Bump(t, k);
      assert r.keys[..|r.keys| - 1] == t.keys;
      SumOutside(t.keys, t.counts, k, 1);
    }
  }

  /** `counts.items()`: the pairs in key order. */
  function Items<K(==)>(t: Tally<K>): (items: seq<(K, nat)>)
    requires Valid(t)
    ensures |items| == |t.keys|
    ensures forall i :: 0 <= i < |items| ==> items[i] == (t.keys[i], t.counts[t.keys[i]])
  {
    seq(|t.keys|, i requires 0 <= i < |t.keys| => (t.keys[i], t.counts[t.keys[i]]))
  }

  predicate NonIncreasing<K(==)>(s: seq<(K, nat)>) {
    forall i, j :: 0 <= i < j < |s| ==> s[i].1 >= s[j].1
  }

  /** Places `x` after every pair whose count is at least its own, so that
      pairs with equal counts keep their order. */
  function Insert<K(==)>(s: seq<(K, nat)>, x: (K, nat)): (r: seq<(K, nat)>)
    requires NonIncreasing(s)
    ensures NonIncreasing(r)
    ensures multiset(r) == multiset(s) + multiset{x}
    ensures |r| == |s| + 1
  {
    if s == [] || s[|s| - 1].1 >= x.1 then
      s + [x]
    else
      var front := s[..|s| - 1];
      var last := s[|s| - 1];
      assert s == front + [last];
      var r := Insert(front, x) + [last];
      AllAtLeast(Insert(front, x), front, x, last.1);
      r
  }

  /** A permutation of `front` and `x` has every count at least `bound` when they do. */
  lemma AllAtLeast<K>(r: seq<(K, nat)>, front: seq<(K, nat)>, x: (K, nat), bound: nat)
    requires multiset(r) == multiset(front) + multiset{x}
    requires forall i :: 0 <= i < |front| ==> front[i].1 >= bound
    requires x.1 >= bound
    ensures forall i :: 0 <= i < |r| ==> r[i].1 >= bound
  {
    forall i | 0 <= i < |r| ensures r[i].1 >= bound {
      var y := r[i];
      assert y in multiset(r);
      if y != x {
        assert y in multiset(front);
        var k :| 0 <= k < |front| && front[k] == y;
      }
    }
  }

  /** `sorted(items, key=count, reverse=True)`: a stable sort by non-increasing count. */
  function SortDesc<K(==)>(items: seq<(K, nat)>): (r: seq<(K, nat)>)
    ensures NonIncreasing(r)
    ensures multiset(r) == multiset(items)
    ensures |r| == |items|
  {
    if items == [] then []
    else
      var front := items[..|items| - 1];
      assert items == front + [items[|items| - 1]];
      Insert(SortDesc(front), items[|items| - 1])
  }

  /** `sorted(counts.items(), key=lambda x: x[1], reverse=True)[:n]`. */
  function Top<K(==)>(t: Tally<K>, n: nat): seq<(K, nat)>
    requires Valid(t)
  {
    Take(SortDesc(Items(t)), n)
  }

  /** The ranking keeps at most `n` pairs, by non-increasing count, each a
      counted key with its own count, and drops a pair only when `n` are kept. */
  lemma TopRanked<K>(t: Tally<K>, n: nat)
    requires Valid(t)
    ensures |Top(t, n)| == if n < |t.keys| then n else |t.keys|
    ensures NonIncreasing(Top(t, n))
    ensures forall p <- Top(t, n) :: p.0 in t.counts && p.1 == t.counts[p.0]
  {
    var sorted := SortDesc(Items(t));
    var top := Top(t, n);
    forall p <- top ensures p.0 in t.counts && p.1 == t.counts[p.0] {
      var i :| 0 <= i < |top| && top[i] == p;
      assert sorted[i] == p;
      assert p in multiset(Items(t));
    }
  }

  /** `max(counts, key=counts.get)`: the first key, in key order, with the largest count. */
  function FirstMax<K(==)>(t: Tally<K>): (k: Option<K>)
    requires Valid(t)
    ensures k.None? <==> t.keys == []
    ensures k.Some? ==> k.value in t.counts
    ensures k.Some? ==> forall j <- t.keys :: t.counts[j] <= t.counts[k.value]
  {
    if t.keys == [] then None else Some(MaxFrom(t.keys, t.counts, |t.keys| - 1))
  }

  /** The first of `keys[..i + 1]` with the largest count. */
  function MaxFrom<K(==)>(keys: seq<K>, counts: map<K, nat>, i: nat): (k: K)
    requires i < |keys|
    requires forall j <- keys :: j in counts
    ensures k in keys[..i + 1]
    ensures forall j <- keys[..i + 1] :: counts[j] <= counts[k]
  {
    if i == 0 then keys[0]
    else
      var best := MaxFrom(keys, counts, i - 1);
      assert forall j <- keys[..i + 1] :: j in keys[..i] || j == keys[i];
      if counts[keys[i]] > counts[best] then keys[i] else best
  }

  /** Ties go to the earlier key: every key before the maximum has a smaller count. */
  lemma {:induction false} MaxFromIsFirst<K>(keys: seq<K>, counts: map<K, nat>, i: nat)
    requires i < |keys| && Distinct(keys)
    requires forall j <- keys :: j in counts
    ensures forall m, p :: 0 <= m < p <= i && keys[p] == MaxFrom(keys, counts, i) ==> counts[keys[m]] < counts[keys[p]]
  {
    if i > 0 {
      MaxFromIsFirst(keys, counts, i - 1);
    }
  }
}
