/** Facts about sets, maps and identities that several components need. */
module Collections {
  import opened Options

  function Get<K, V>(m: map<K, V>, k: K): Option<V> { if k in m then Some(m[k]) else None }

  /** Maps with the same entries are the same map. */
  lemma {:induction false} SameMap<K, V>(a: map<K, V>, b: map<K, V>)
    requires forall k :: Get(a, k) == Get(b, k)
    ensures a == b
  {
    forall k ensures k in a <==> k in b { assert Get(a, k) == Get(b, k); }
    forall k | k in a ensures a[k] == b[k] { assert Get(a, k) == Get(b, k); }
  }

  lemma {:induction false} SubsetSize<T>(a: set<T>, b: set<T>)
    requires a <= b
    ensures |a| <= |b|
    decreases a
  {
    if x :| x in a { SubsetSize(a - {x}, b - {x}); }
  }

  lemma {:induction false} ProperSubsetSize<T>(a: set<T>, b: set<T>)
    requires a < b
    ensures |a| < |b|
  {
    var x :| x in b && x !in a;
    assert a <= b - {x};
    SubsetSize(a, b - {x});
  }

  lemma {:induction false} UpperBound(s: set<nat>) returns (n: nat)
    ensures forall x | x in s :: x < n
    decreases s
  {
    n := 0;
    if s != {} {
      var x :| x in s;
      var m := UpperBound(s - {x});
      n := if x < m then m else x + 1;
      assert forall y | y in s :: y == x || y in s - {x};
    }
  }

  /** There is always an identity that was not handed out. */
  lemma {:induction false} Unused(s: set<nat>) returns (n: nat)
    ensures n !in s
  {
    n := UpperBound(s);
  }
}
