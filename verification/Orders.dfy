/** The orders in which a Go map can be walked. */
module Orders {
  /** Every key exactly once. */
  ghost predicate IsOrderOf<V>(order: seq<string>, m: map<string, V>) {
    && (forall k :: k in order <==> k in m)
    && (forall i, j | 0 <= i < j < |order| :: order[i] != order[j])
  }

  /** A walk of m that has yet to come to the keys in left. */
  ghost predicate IsWalk<V>(order: seq<string>, m: map<string, V>, left: set<string>) {
    && (forall k :: k in order <==> k in m && k !in left)
    && (forall i, j | 0 <= i < j < |order| :: order[i] != order[j])
  }

  lemma WalkOn<V>(order: seq<string>, m: map<string, V>, left: set<string>, k: string)
    requires IsWalk(order, m, left) && k in left && k in m
    ensures IsWalk(order + [k], m, left - {k})
  {
    var longer := order + [k];
    forall i, j | 0 <= i < j < |longer| ensures longer[i] != longer[j] {
      assert longer[i] in order;
    }
  }

  /** Any key can come last. */
  lemma OrderEndingIn<V>(m: map<string, V>, k: string) returns (order: seq<string>)
    requires k in m
    ensures IsOrderOf(order, m) && order != [] && order[|order| - 1] == k
    decreases |m|
  {
    var rest := m - {k};
    assert forall k' :: k' in m <==> k' in rest || k' == k;
    order := [];
    if rest != map[] {
      assert rest.Keys == m.Keys - {k} && |rest| == |rest.Keys| < |m.Keys| == |m|;
      var k' :| k' in rest;
      order := OrderEndingIn(rest, k');
    }
    order := order + [k];
  }

  /** The values of m in the given order of its keys. */
  function Values<V>(order: seq<string>, m: map<string, V>): seq<V>
    requires forall k | k in order :: k in m
  {
    if order == [] then [] else Values(order[..|order| - 1], m) + [m[order[|order| - 1]]]
  }

  lemma {:induction false} ValuesAt<V>(order: seq<string>, m: map<string, V>)
    requires forall k | k in order :: k in m
    ensures |Values(order, m)| == |order| && forall i | 0 <= i < |order| :: Values(order, m)[i] == m[order[i]]
  {
    if order != [] {
      ValuesAt(order[..|order| - 1], m);
    }
  }

  /** vs lists the values of m, each key's once. */
  ghost predicate IsListing<V>(vs: seq<V>, m: map<string, V>) {
    exists order :: IsOrderOf(order, m) && vs == Values(order, m)
  }
}
