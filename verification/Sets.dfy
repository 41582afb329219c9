/** Sizes of finite sets. */
module Sets {

  lemma SubsetIsNoLarger<T>(a: set<T>, b: set<T>)
    requires a <= b
    ensures |a| <= |b|
    ensures a != b ==> |a| < |b|
  {
    var rest := b - a;
    assert b == a + rest;
    if rest == {} {
      assert a == b;
    }
  }

  ghost predicate Injective<K, V>(m: map<K, V>) {
    forall a, b | a in m && b in m && a != b :: m[a] != m[b]
  }

  /** A set that is no larger can be matched into the other. */
  lemma {:induction false} MatchingExists<K, V>(a: set<K>, b: set<V>)
    requires |a| <= |b|
    ensures exists m: map<K, V> :: m.Keys == a && Injective(m) && forall k | k in m :: m[k] in b
    decreases |a|
  {
    if a == {} {
      var m: map<K, V> := map[];
      assert m.Keys == a;
    } else {
      var k :| k in a;
      var v :| v in b;
      MatchingExists(a - {k}, b - {v});
      var m: map<K, V> :| m.Keys == a - {k} && Injective(m) && forall x | x in m :: m[x] in b - {v};
      var longer := m[k := v];
      assert longer.Keys == a;
    }
  }

  /** And only then. */
  lemma {:induction false} MatchedIsNoLarger<K, V>(m: map<K, V>, b: set<V>)
    requires Injective(m) && forall k | k in m :: m[k] in b
    ensures |m.Keys| <= |b|
    decreases |m.Keys|
  {
    if m.Keys != {} {
      var k :| k in m.Keys;
      var rest := m - {k};
      assert rest.Keys == m.Keys - {k};
      MatchedIsNoLarger(rest, b - {m[k]});
    }
  }
}
