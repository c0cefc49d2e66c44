/** Counting and summing over maps, with the effect of updating one key. */
module Collections {
  datatype Option<+T> = None | Some(value: T)

  /** How many keys have a value with property p. */
  ghost function Count<K, V>(m: map<K, V>, p: V -> bool): nat {
    |Having(m, p)|
  }

  /** The keys with a value with property p. */
  ghost function Having<K, V>(m: map<K, V>, p: V -> bool): set<K> {
    set k | k in m && p(m[k])
  }

  lemma HavingUpdate<K, V>(m: map<K, V>, p: V -> bool, key: K, value: V)
    ensures Having(m[key := value], p) == if p(value) then (Having(m, p) - {key}) + {key} else Having(m, p) - {key}
  {
  }

  lemma CountUpdate<K, V>(m: map<K, V>, p: V -> bool, key: K, value: V)
    ensures Count(m[key := value], p) ==
            Count(m, p) - (if key in m && p(m[key]) then 1 else 0) + (if p(value) then 1 else 0)
  {
    HavingUpdate(m, p, key, value);
    assert key in Having(m, p) <==> key in m && p(m[key]);
  }

  /** If only one value counts, no other key has a counting one. */
  lemma CountOne<K, V>(m: map<K, V>, p: V -> bool, key: K, other: K)
    requires Count(m, p) == 1 && key in m && p(m[key]) && other in m && other != key
    ensures !p(m[other])
  {
    var having := Having(m, p);
    if p(m[other]) {
      assert {key, other} <= having;
      SubsetSmaller({key, other}, having);
    }
  }

  lemma SubsetSmaller<K>(a: set<K>, b: set<K>)
    requires a <= b
    ensures |a| <= |b|
  {
    assert b == a + (b - a);
  }

  lemma CountZero<K, V>(m: map<K, V>, p: V -> bool)
    ensures Count(m, p) == 0 <==> forall k :: k in m ==> !p(m[k])
  {
    var keys := set k | k in m && p(m[k]);
    if forall k :: k in m ==> !p(m[k]) { assert keys == {}; }
    forall k | k in m && p(m[k])
      ensures Count(m, p) != 0
    {
      assert k in keys;
    }
  }

  /** The sum of f over a set of keys. */
  ghost function Sum<K(!new)>(keys: set<K>, f: K -> nat): nat
    decreases |keys|
  {
    if keys == {} then 0
    else
      var k :| k in keys;
      f(k) + Sum(keys - {k}, f)
  }

  lemma {:induction false} SumRemove<K(!new)>(keys: set<K>, f: K -> nat, key: K)
    requires key in keys
    ensures Sum(keys, f) == f(key) + Sum(keys - {key}, f)
    decreases |keys|
  {
    var k :| k in keys && Sum(keys, f) == f(k) + Sum(keys - {k}, f);
    if k != key {
      SumRemove(keys - {k}, f, key);
      SumRemove(keys - {key}, f, k);
      assert keys - {k} - {key} == keys - {key} - {k};
    }
  }

  lemma {:induction false} SumSame<K(!new)>(keys: set<K>, f: K -> nat, g: K -> nat)
    requires forall k :: k in keys ==> f(k) == g(k)
    ensures Sum(keys, f) == Sum(keys, g)
    decreases |keys|
  {
    if keys != {} {
      var k :| k in keys && Sum(keys, f) == f(k) + Sum(keys - {k}, f);
      SumRemove(keys, g, k);
      SumSame(keys - {k}, f, g);
    }
  }

  // ---- Parts of a sequence, in order ------------------------------------------------------------

  /** Positions below n, each after the one before it. */
  predicate Ascending(positions: seq<nat>, n: nat) {
    && (forall j, k :: 0 <= j < k < |positions| ==> positions[j] < positions[k])
    && (forall k :: 0 <= k < |positions| ==> positions[k] < n)
  }

  /** The elements at these positions. */
  function Pick<T>(items: seq<T>, positions: seq<nat>): seq<T>
    requires forall k :: 0 <= k < |positions| ==> positions[k] < |items|
  {
    seq(|positions|, k requires 0 <= k < |positions| => items[positions[k]])
  }

  lemma PickMore<T>(items: seq<T>, positions: seq<nat>, i: nat)
    requires Ascending(positions, i) && i < |items|
    ensures Ascending(positions, i + 1) && Ascending(positions + [i], i + 1)
    ensures Pick(items, positions + [i]) == Pick(items, positions) + [items[i]]
    ensures i !in positions && forall j :: j in positions + [i] <==> j in positions || j == i
  {
  }

  /** The positions below n that satisfy p, in order. */
  function Where(n: nat, p: nat -> bool): seq<nat> {
    if n == 0 then [] else if p(n - 1) then Where(n - 1, p) + [n - 1] else Where(n - 1, p)
  }

  lemma {:induction false} WhereAre(n: nat, p: nat -> bool)
    ensures Ascending(Where(n, p), n)
    ensures forall i: nat {:trigger i in Where(n, p)} :: i in Where(n, p) <==> i < n && p(i)
  {
    if n > 0 {
      WhereAre(n - 1, p);
      var before := Where(n - 1, p);
      forall i: nat
        ensures i in Where(n, p) <==> i < n && p(i)
      {
        assert i in before <==> i < n - 1 && p(i);
      }
    }
  }
}
