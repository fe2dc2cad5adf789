/** Sequences read as collections: their elements, whether these are distinct, and searching them. */
module Collections {
  import opened Domain

  function Map<T, K>(f: T -> K, s: seq<T>): seq<K> {
    seq(|s|, i requires 0 <= i < |s| => f(s[i]))
  }

  function Elements<K(==)>(keys: seq<K>): set<K> { set k | k in keys }

  predicate Distinct<K(==)>(keys: seq<K>) {
    forall i, j :: 0 <= i < j < |keys| ==> keys[i] != keys[j]
  }

  lemma DistinctExtends<K>(keys: seq<K>, k: K)
    ensures Distinct(keys + [k]) <==> Distinct(keys) && k !in keys
  {
    var all := keys + [k];
    assert forall i :: 0 <= i < |keys| ==> all[i] == keys[i];
    assert all[|keys|] == k;
    if k in keys {
      var i :| 0 <= i < |keys| && keys[i] == k;
      assert all[i] == all[|keys|];
    } else if !Distinct(keys) {
      var i, j :| 0 <= i < j < |keys| && keys[i] == keys[j];
      assert all[i] == all[j];
    }
  }

  lemma ElementsExtend<K>(keys: seq<K>, k: K)
    ensures Elements(keys + [k]) == Elements(keys) + {k}
  {
  }

  /** Collecting a list into a set loses nothing exactly when the list has no repetition. */
  lemma {:induction false} DistinctIffCardinality<K>(keys: seq<K>)
    ensures |Elements(keys)| <= |keys|
    ensures Distinct(keys) <==> |Elements(keys)| == |keys|
  {
    if keys == [] {
      assert Elements(keys) == {};
    } else {
      var front, k := keys[..|keys| - 1], keys[|keys| - 1];
      assert keys == front + [k];
      DistinctIffCardinality(front);
      DistinctExtends(front, k);
      ElementsExtend(front, k);
      assert k in Elements(front) ==> Elements(front) + {k} == Elements(front);
    }
  }

  lemma SubsetCardinality<K>(a: set<K>, b: set<K>)
    requires a <= b
    ensures |a| <= |b| && (|a| == |b| ==> a == b)
  {
    assert b == a + (b - a);
    assert |b| == |a| + |b - a|;
  }

  /** Two lists of one length without repetition, one inside the other, have the same elements. */
  lemma Pigeonhole<K>(a: seq<K>, b: seq<K>)
    requires |a| == |b| && Distinct(a) && Elements(a) <= Elements(b)
    ensures Elements(a) == Elements(b) && Distinct(b)
  {
    DistinctIffCardinality(a);
    DistinctIffCardinality(b);
    SubsetCardinality(Elements(a), Elements(b));
  }

  function Find<T>(s: seq<T>, p: T -> bool): (r: Option<T>)
    ensures r.None? ==> forall x :: x in s ==> !p(x)
    ensures r.Some? ==> r.value in s && p(r.value)
  {
    if s == [] then None else if p(s[0]) then Some(s[0]) else Find(s[1..], p)
  }

  predicate Permuted<T(==)>(a: seq<T>, b: seq<T>) { multiset(a) == multiset(b) }

  lemma PermutedElements<T>(a: seq<T>, b: seq<T>)
    requires Permuted(a, b)
    ensures |a| == |b| && (forall x :: x in a <==> x in b)
  {
    assert |multiset(a)| == |a| && |multiset(b)| == |b|;
    assert forall x :: x in a <==> x in multiset(a);
  }

  lemma PermutedKeys<T, K>(f: T -> K, a: seq<T>, b: seq<T>)
    requires Permuted(a, b)
    ensures Elements(Map(f, a)) == Elements(Map(f, b))
    ensures Distinct(Map(f, a)) <==> Distinct(Map(f, b))
  {
    PermutedElements(a, b);
    KeysWithin(f, a, b);
    KeysWithin(f, b, a);
    DistinctIffCardinality(Map(f, a));
    DistinctIffCardinality(Map(f, b));
  }

  lemma KeyIn<T, K>(f: T -> K, s: seq<T>, x: T)
    requires x in s
    ensures f(x) in Elements(Map(f, s))
  {
    var i :| 0 <= i < |s| && s[i] == x;
    assert Map(f, s)[i] == f(x);
  }

  lemma KeyFrom<T, K>(f: T -> K, s: seq<T>, k: K) returns (x: T)
    requires k in Elements(Map(f, s))
    ensures x in s && f(x) == k
  {
    var i :| 0 <= i < |s| && Map(f, s)[i] == k;
    x := s[i];
  }

  lemma KeysWithin<T, K>(f: T -> K, a: seq<T>, b: seq<T>)
    requires forall x :: x in a ==> x in b
    ensures Elements(Map(f, a)) <= Elements(Map(f, b))
  {
    forall k | k in Elements(Map(f, a))
      ensures k in Elements(Map(f, b))
    {
      var i :| 0 <= i < |a| && Map(f, a)[i] == k;
      assert a[i] in b;
      var j :| 0 <= j < |b| && b[j] == a[i];
      assert Map(f, b)[j] == k;
    }
  }

  /** With distinct keys, the key decides the member. */
  lemma KeyDecides<T, K>(f: T -> K, s: seq<T>, x: T, y: T)
    requires Distinct(Map(f, s)) && x in s && y in s && f(x) == f(y)
    ensures x == y
  {
    var i :| 0 <= i < |s| && s[i] == x;
    var j :| 0 <= j < |s| && s[j] == y;
    assert Map(f, s)[i] == Map(f, s)[j];
  }
}
