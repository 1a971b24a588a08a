/** Path-keyed maps (`PathMap` in the client) and the order in which a loop visits them. */
module PathMaps {
  import opened Dbus

  /** `order` lists every path of `keys` exactly once: one possible iteration order of a
      `HashMap` whose key set is `keys`. */
  predicate IsOrderOf(order: seq<Path>, keys: set<Path>)
  {
    && (forall i, j :: 0 <= i < j < |order| ==> order[i] != order[j])
    && (forall p :: p in order ==> p in keys)
    && (forall p :: p in keys ==> p in order)
  }

  /** The position of the first entry, in iteration order, whose value satisfies `stop`;
      `|order|` when there is none. A loop that breaks or returns at `stop` ends there. */
  function FirstWhere<V>(m: map<Path, V>, order: seq<Path>, stop: V -> bool): (k: nat)
    requires forall p :: p in order ==> p in m
    ensures k <= |order|
    ensures k < |order| ==> stop(m[order[k]])
    ensures forall j :: 0 <= j < k ==> !stop(m[order[j]])
  {
    if order == [] then 0
    else if stop(m[order[0]]) then 0
    else
      var k' := FirstWhere(m, order[1..], stop);
      assert forall j :: 1 <= j < k' + 1 ==> order[j] == order[1..][j - 1];
      k' + 1
  }

  /** A position where `stop` holds and before which it never holds is the first one. */
  lemma FirstWhereAt<V>(m: map<Path, V>, order: seq<Path>, stop: V -> bool, i: nat)
    requires forall p :: p in order ==> p in m
    requires i <= |order|
    requires i < |order| ==> stop(m[order[i]])
    requires forall j :: 0 <= j < i ==> !stop(m[order[j]])
    ensures FirstWhere(m, order, stop) == i
  {
  }

  /** Some entry of the map satisfies `P` exactly when some position of an iteration order does. */
  lemma SomeKeyIffSomePosition<V>(m: map<Path, V>, order: seq<Path>, P: V -> bool)
    requires IsOrderOf(order, m.Keys)
    ensures (exists p :: p in m && P(m[p])) <==> (exists j :: 0 <= j < |order| && P(m[order[j]]))
  {
    if p :| p in m && P(m[p]) {
      var j :| 0 <= j < |order| && order[j] == p;
      assert P(m[order[j]]);
    }
    if j :| 0 <= j < |order| && P(m[order[j]]) {
      assert order[j] in m;
    }
  }
}
