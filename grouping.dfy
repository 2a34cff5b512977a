/**
 * Grouping a list by a key into a JavaScript `Map<K, T[]>`, as the polling cycle does twice:
 * subscriptions by owning user and unnotified wars by alliance. A `Map` iterates its keys in
 * the order they were first set, and each pushed array keeps the order of the input.
 */
module Grouping {

  /** The keys of the grouping, in the order the loop first meets them. */
  function Keys<T, K(==)>(s: seq<T>, key: T -> K): seq<K>
  {
    if s == [] then []
    else
      var ks := Keys(s[..|s| - 1], key);
      if key(s[|s| - 1]) in ks then ks else ks + [key(s[|s| - 1])]
  }

  /** The array stored under `k`: the elements of `s` with that key, in input order. */
  function Group<T, K(==)>(s: seq<T>, key: T -> K, k: K): seq<T>
  {
    if s == [] then []
    else Group(s[..|s| - 1], key, k) + (if key(s[|s| - 1]) == k then [s[|s| - 1]] else [])
  }

  /** The groups of `ks`, one after the other. */
  function Concat<T, K(==)>(ks: seq<K>, s: seq<T>, key: T -> K): seq<T>
  {
    if ks == [] then [] else Concat(ks[..|ks| - 1], s, key) + Group(s, key, ks[|ks| - 1])
  }

  predicate Distinct<K(==)>(ks: seq<K>) {
    forall i, j :: 0 <= i < j < |ks| ==> ks[i] != ks[j]
  }

  /** The `Map`-building loop: create an empty array on first sight of a key, then push. */
  method GroupBy<T, K(==)>(s: seq<T>, key: T -> K) returns (order: seq<K>, groups: map<K, seq<T>>)
    ensures order == Keys(s, key)
    ensures forall k :: k in groups <==> k in order
    ensures forall k :: k in groups ==> groups[k] == Group(s, key, k)
  {
    order, groups := [], map[];
    for i := 0 to |s|
      invariant order == Keys(s[..i], key)
      invariant forall k :: k in groups <==> k in order
      invariant forall k :: k in groups ==> groups[k] == Group(s[..i], key, k)
    {
      assert s[..i + 1][..i] == s[..i];
      var k := key(s[i]);
      if k !in groups {
        GroupEmpty(s[..i], key, k);
        groups := groups[k := []];
        order := order + [k];
      }
      groups := groups[k := groups[k] + [s[i]]];
    }
    assert s[..|s|] == s;
  }

  /** A key is listed exactly when some element carries it. */
  lemma {:induction false} KeysComplete<T, K>(s: seq<T>, key: T -> K, k: K)
    ensures k in Keys(s, key) <==> exists x :: x in s && key(x) == k
  {
    if s != [] {
      var p := s[..|s| - 1];
      KeysComplete(p, key, k);
      assert s == p + [s[|s| - 1]];
      assert forall x :: x in s <==> x in p || x == s[|s| - 1];
    }
  }

  /** No key is listed twice, so no group is visited twice. */
  lemma {:induction false} KeysDistinct<T, K>(s: seq<T>, key: T -> K)
    ensures Distinct(Keys(s, key))
  {
    if s != [] {
      KeysDistinct(s[..|s| - 1], key);
    }
  }

  /** The group of a key is empty exactly when the key is not listed. */
  lemma {:induction false} GroupEmpty<T, K>(s: seq<T>, key: T -> K, k: K)
    ensures Group(s, key, k) == [] <==> k !in Keys(s, key)
  {
    if s != [] {
      GroupEmpty(s[..|s| - 1], key, k);
    }
  }

  /** Every element of a group has the group's key, and every element with that key is in it. */
  lemma {:induction false} GroupMembers<T, K>(s: seq<T>, key: T -> K, k: K)
    ensures forall x :: x in Group(s, key, k) <==> x in s && key(x) == k
  {
    if s != [] {
      var p := s[..|s| - 1];
      GroupMembers(p, key, k);
      assert s == p + [s[|s| - 1]];
    }
  }

  /** Each occurrence of an element lands in the group of its own key and in no other. */
  lemma {:induction false} GroupCounts<T, K>(s: seq<T>, key: T -> K, k: K)
    ensures forall x :: multiset(Group(s, key, k))[x] == if key(x) == k then multiset(s)[x] else 0
  {
    if s != [] {
      var p := s[..|s| - 1];
      GroupCounts(p, key, k);
      assert s == p + [s[|s| - 1]];
    }
  }

  /** Over distinct keys, an element occurs in the concatenated groups as often as in the input if its key is listed, else never. */
  lemma {:induction false} ConcatCount<T, K>(ks: seq<K>, s: seq<T>, key: T -> K, y: T)
    requires Distinct(ks)
    ensures multiset(Concat(ks, s, key))[y] == if key(y) in ks then multiset(s)[y] else 0
  {
    if ks != [] {
      var q, k := ks[..|ks| - 1], ks[|ks| - 1];
      assert ks == q + [k];
      forall i, j | 0 <= i < j < |q| ensures q[i] != q[j] {
        assert q[i] == ks[i] && q[j] == ks[j];
      }
      if key(y) in q {
        var i :| 0 <= i < |q| && q[i] == key(y);
        assert ks[i] == key(y);
      }
      ConcatCount(q, s, key, y);
      GroupCounts(s, key, k);
      assert multiset(Concat(ks, s, key))[y] == multiset(Concat(q, s, key))[y] + multiset(Group(s, key, k))[y];
    }
  }

  /** Every element occurs in the concatenated groups as often as in the input. */
  lemma PartitionCount<T, K>(s: seq<T>, key: T -> K, y: T)
    ensures multiset(Concat(Keys(s, key), s, key))[y] == multiset(s)[y]
  {
    KeysDistinct(s, key);
    ConcatCount(Keys(s, key), s, key, y);
    KeysComplete(s, key, key(y));
    if y in s {
      assert key(y) in Keys(s, key);
    } else {
      assert y !in multiset(s);
    }
  }

  /** The groups together are a permutation of the input: the grouping is a partition. */
  lemma GroupsPartition<T, K>(s: seq<T>, key: T -> K)
    ensures forall y :: multiset(Concat(Keys(s, key), s, key))[y] == multiset(s)[y]
  {
    forall y ensures multiset(Concat(Keys(s, key), s, key))[y] == multiset(s)[y] {
      PartitionCount(s, key, y);
    }
  }
}
