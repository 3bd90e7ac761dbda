/** The SQL operators the Gold queries are made of, over sequences of records, and when they preserve totals. */
module Relational {
  import opened Collections

  function Sum<T>(s: seq<T>, f: T -> int): int {
    if s == [] then 0 else f(s[0]) + Sum(s[1..], f)
  }

  /** `sum(x)`: nulls are skipped, and the sum of nothing but nulls is null. */
  function NullableSum<T>(s: seq<T>, f: T -> Option<int>): Option<int> {
    if s == [] then None
    else
      match f(s[0])
      case None => NullableSum(s[1..], f)
      case Some(v) => Some(v + Coalesce(NullableSum(s[1..], f)))
  }

  /** `coalesce(x, 0)` */
  function Coalesce(x: Option<int>): int { if x.Some? then x.value else 0 }

  function OrZero<T>(f: T -> Option<int>): T -> int { x => Coalesce(f(x)) }

  function Has<T, K(==)>(key: T -> K, k: K): T -> bool { x => key(x) == k }

  function InKeys<T, K(==)>(key: T -> K, keys: seq<K>): T -> bool { x => key(x) in keys }

  /** The rows of one group. */
  function Group<T, K(==)>(s: seq<T>, key: T -> K, k: K): seq<T> { Filter(s, Has(key, k)) }

  /** The groups of `GROUP BY key`, in the order they are first met. */
  function Keys<T, K(==)>(s: seq<T>, key: T -> K): (ks: seq<K>)
  {
    if s == [] then []
    else
      var before := Keys(s[..|s| - 1], key);
      if key(s[|s| - 1]) in before then before else before + [key(s[|s| - 1])]
  }

  /** `LEFT JOIN .. ON ka = kb`: a null key matches nothing, a row without match is kept once. */
  function LeftJoin<A, B, K(==)>(left: seq<A>, right: seq<B>, ka: A -> Option<K>, kb: B -> K): seq<(A, Option<B>)> {
    if left == [] then [] else Matches(left[0], right, ka(left[0]), kb) + LeftJoin(left[1..], right, ka, kb)
  }

  function Matching<B, K(==)>(right: seq<B>, k: Option<K>, kb: B -> K): seq<B> {
    match k
    case None => []
    case Some(v) => Group(right, kb, v)
  }

  function Matches<A, B, K(==)>(a: A, right: seq<B>, k: Option<K>, kb: B -> K): seq<(A, Option<B>)> {
    var bs := Matching(right, k, kb);
    if bs == [] then [(a, None)] else Map(bs, PairWith(a))
  }

  function PairWith<A, B>(a: A): B -> (A, Option<B>) { b => (a, Some(b)) }

  /** A column of the left table, read off a joined row. */
  function LeftColumn<A, B, J>(column: A -> J): ((A, Option<B>)) -> J { (r: (A, Option<B>)) => column(r.0) }

  /** The row a key names, if any. */
  function Lookup<B, K(==)>(right: seq<B>, kb: B -> K, k: Option<K>): Option<B> {
    var bs := Matching(right, k, kb);
    if bs == [] then None else Some(bs[0])
  }

  predicate UniqueKeys<T, K(==)>(s: seq<T>, key: T -> K) {
    forall i, j :: 0 <= i < j < |s| ==> key(s[i]) != key(s[j])
  }

  // ---------------------------------------------------------------- sums

  lemma {:induction false} SumConcat<T>(s: seq<T>, t: seq<T>, f: T -> int)
    ensures Sum(s + t, f) == Sum(s, f) + Sum(t, f)
  {
    if s == [] {
      assert s + t == t;
    } else {
      assert (s + t)[1..] == s[1..] + t;
      SumConcat(s[1..], t, f);
    }
  }

  lemma SumCons<T>(x: T, t: seq<T>, f: T -> int)
    ensures Sum([x] + t, f) == f(x) + Sum(t, f)
  {
    assert ([x] + t)[1..] == t;
  }

  lemma {:induction false} SumAgrees<T>(s: seq<T>, f: T -> int, g: T -> int)
    requires forall x :: x in s ==> f(x) == g(x)
    ensures Sum(s, f) == Sum(s, g)
  {
    if s != [] { SumAgrees(s[1..], f, g); }
  }

  lemma {:induction false} SumOfMap<T, U>(s: seq<T>, h: T -> U, f: U -> int, g: T -> int)
    requires forall x :: x in s ==> f(h(x)) == g(x)
    ensures Sum(Map(s, h), f) == Sum(s, g)
  {
    if s != [] { SumOfMap(s[1..], h, f, g); }
  }

  lemma {:induction false} SumConstant<T>(s: seq<T>, f: T -> int, c: int)
    requires forall x :: x in s ==> f(x) == c
    ensures Sum(s, f) == c * |s|
  {
    if s != [] {
      SumConstant(s[1..], f, c);
      assert c * |s| == c + c * |s[1..]|;
    }
  }

  lemma {:induction false} NullableSumIsSum<T>(s: seq<T>, f: T -> Option<int>)
    ensures Coalesce(NullableSum(s, f)) == Sum(s, OrZero(f))
  {
    if s != [] { NullableSumIsSum(s[1..], f); }
  }

  lemma NullableSumOne<T>(x: T, f: T -> Option<int>)
    ensures NullableSum([x], f) == f(x)
  {
    assert [x][1..] == [];
  }

  /** Changing a summand at one of several distinct keys changes the sum by as much. */
  lemma {:induction false} SumAtKey<K>(keys: seq<K>, f: K -> int, g: K -> int, k: K, delta: int)
    requires Distinct(keys)
    requires forall x :: x in keys ==> g(x) == f(x) + if x == k then delta else 0
    ensures Sum(keys, g) == Sum(keys, f) + if k in keys then delta else 0
  {
    if keys != [] {
      assert keys[0] in keys;
      assert k in keys <==> k == keys[0] || k in keys[1..];
      SumAtKey(keys[1..], f, g, k, delta);
      forall x | x in keys[1..] ensures x != keys[0] {
        var i :| 0 <= i < |keys[1..]| && keys[1..][i] == x;
        assert keys[i + 1] == x;
      }
    }
  }

  // ---------------------------------------------------------------- grouping

  function GroupSum<T, K(==)>(s: seq<T>, key: T -> K, f: T -> int): K -> int { k => Sum(Group(s, key, k), f) }

  lemma GroupCons<T>(s: seq<T>, p: T -> bool)
    requires s != []
    ensures Filter(s, p) == if p(s[0]) then [s[0]] + Filter(s[1..], p) else Filter(s[1..], p)
  {
  }

  /** Summing per group and then over distinct groups counts every row of those groups once. */
  lemma {:induction false} GroupsConserve<T, K>(s: seq<T>, key: T -> K, f: T -> int, keys: seq<K>)
    requires Distinct(keys)
    ensures Sum(keys, GroupSum(s, key, f)) == Sum(Filter(s, InKeys(key, keys)), f)
  {
    if s == [] {
      SumConstant(keys, GroupSum(s, key, f), 0);
    } else {
      var rest := s[1..];
      GroupsConserve(rest, key, f, keys);
      forall k | k in keys
        ensures GroupSum(s, key, f)(k) == GroupSum(rest, key, f)(k) + if k == key(s[0]) then f(s[0]) else 0
      {
        GroupCons(s, Has(key, k));
        if k == key(s[0]) { SumCons(s[0], Group(rest, key, k), f); }
      }
      SumAtKey(keys, GroupSum(rest, key, f), GroupSum(s, key, f), key(s[0]), f(s[0]));
      GroupCons(s, InKeys(key, keys));
      SumCons(s[0], Filter(rest, InKeys(key, keys)), f);
    }
  }

  lemma NoKeysIff<T, K>(s: seq<T>, key: T -> K)
    ensures Keys(s, key) == [] <==> s == []
  {
    if s != [] {
      var before := Keys(s[..|s| - 1], key);
      assert key(s[|s| - 1]) in before ==> before != [];
    }
  }

  lemma {:induction false} KeysExact<T, K>(s: seq<T>, key: T -> K)
    ensures Distinct(Keys(s, key))
    ensures forall k :: k in Keys(s, key) <==> exists x :: x in s && key(x) == k
  {
    if s != [] {
      var n := |s| - 1;
      KeysExact(s[..n], key);
      assert s == s[..n] + [s[n]];
      forall k ensures k in Keys(s, key) <==> exists x :: x in s && key(x) == k {
        if k in Keys(s[..n], key) {
          var x :| x in s[..n] && key(x) == k;
          assert x in s;
        } else if k in Keys(s, key) {
          assert s[n] in s && key(s[n]) == k;
        }
        if x :| x in s && key(x) == k {
          assert x in s[..n] || x == s[n];
        }
      }
    }
  }

  lemma CoveredFilter<T, K>(s: seq<T>, key: T -> K, keys: seq<K>)
    requires forall x :: x in s ==> key(x) in keys
    ensures Filter(s, InKeys(key, keys)) == s
  {
    FilterAll(s, InKeys(key, keys));
  }

  lemma {:induction false} SumOfOnes<T>(s: seq<T>, one: T -> int)
    requires forall x :: x in s ==> one(x) == 1
    ensures Sum(s, one) == |s|
  {
    SumConstant(s, one, 1);
  }

  lemma {:induction false} FilterOfMap<T, U>(s: seq<T>, h: T -> U, p: U -> bool, q: T -> bool)
    requires forall x :: x in s ==> (p(h(x)) <==> q(x))
    ensures Filter(Map(s, h), p) == Map(Filter(s, q), h)
  {
    if s != [] {
      FilterOfMap(s[1..], h, p, q);
      if q(s[0]) {
        assert Filter(s, q)[1..] == Filter(s[1..], q);
      }
    }
  }

  lemma {:induction false} FilterLength<T>(s: seq<T>, p: T -> bool)
    ensures |Filter(s, p)| <= |s|
    ensures |Filter(s, p)| == |s| <==> forall x :: x in s ==> p(x)
  {
    if s != [] {
      assert s == [s[0]] + s[1..];
      FilterLength(s[1..], p);
    }
  }

  lemma {:induction false} FilterFilter<T>(s: seq<T>, p: T -> bool, q: T -> bool, both: T -> bool)
    requires forall x :: x in s ==> (both(x) <==> p(x) && q(x))
    ensures Filter(Filter(s, p), q) == Filter(s, both)
  {
    if s != [] {
      FilterFilter(s[1..], p, q, both);
      FilterConcat(if p(s[0]) then [s[0]] else [], Filter(s[1..], p), q);
      FilterOne(s[0], q);
    }
  }

  // ---------------------------------------------------------------- joins

  lemma {:induction false} UniqueMatch<T, K>(s: seq<T>, key: T -> K, k: K)
    requires UniqueKeys(s, key)
    ensures |Group(s, key, k)| <= 1
  {
    if s != [] {
      UniqueMatch(s[1..], key, k);
      forall x | x in s[1..] ensures key(x) != key(s[0]) {
        var i :| 0 <= i < |s[1..]| && s[1..][i] == x;
        assert s[i + 1] == x;
      }
      if key(s[0]) == k { FilterNone(s[1..], Has(key, k)); }
    }
  }

  function Paired<A, B, K(==)>(right: seq<B>, ka: A -> Option<K>, kb: B -> K): A -> (A, Option<B>) {
    a => (a, Lookup(right, kb, ka(a)))
  }

  /** A join whose right keys are unique neither drops nor repeats a left row. */
  lemma {:induction false} FanOutFree<A, B, K>(left: seq<A>, right: seq<B>, ka: A -> Option<K>, kb: B -> K)
    requires UniqueKeys(right, kb)
    ensures LeftJoin(left, right, ka, kb) == Map(left, Paired(right, ka, kb))
  {
    if left != [] {
      FanOutFree(left[1..], right, ka, kb);
      var k := ka(left[0]);
      if k.Some? { UniqueMatch(right, kb, k.value); }
      var bs := Matching(right, k, kb);
      if bs != [] {
        assert bs[1..] == [] && Map(bs, PairWith(left[0])) == [(left[0], Some(bs[0]))];
      }
    }
  }

  /** Without that, the row count tells: a join keeps it exactly when no left row has two matches. */
  lemma {:induction false} FanOutIff<A, B, K>(left: seq<A>, right: seq<B>, ka: A -> Option<K>, kb: B -> K)
    ensures |LeftJoin(left, right, ka, kb)| >= |left|
    ensures |LeftJoin(left, right, ka, kb)| == |left| <==> forall a :: a in left ==> |Matching(right, ka(a), kb)| <= 1
  {
    if left != [] {
      assert left == [left[0]] + left[1..];
      FanOutIff(left[1..], right, ka, kb);
    }
  }
}
