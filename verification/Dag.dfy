/** Reachability over a finite parent table. A commit is known when it is a key of the table. */
module Dag {

  type Parents<!C> = map<C, seq<C>>

  predicate Edge<C(==)>(p: Parents<C>, a: C, b: C) {
    a in p && b in p[a]
  }

  predicate IsPath<C(==)>(p: Parents<C>, path: seq<C>) {
    |path| >= 1 && forall i :: 0 <= i < |path| - 1 ==> Edge(p, path[i], path[i + 1])
  }

  predicate Joins<C(==)>(p: Parents<C>, path: seq<C>, a: C, b: C) {
    IsPath(p, path) && path[0] == a && path[|path| - 1] == b
  }

  /** `b` is `a` itself or reachable from it through any parent edges. */
  ghost predicate Reaches<C(!new)>(p: Parents<C>, a: C, b: C) {
    exists path :: Joins(p, path, a, b)
  }

  ghost predicate ReachesProperly<C(!new)>(p: Parents<C>, a: C, b: C) {
    exists m :: Edge(p, a, m) && Reaches(p, m, b)
  }

  lemma ReachesSelf<C(!new)>(p: Parents<C>, a: C)
    ensures Reaches(p, a, a)
  {
    assert Joins(p, [a], a, a);
  }

  lemma ReachesTrans<C(!new)>(p: Parents<C>, a: C, b: C, c: C)
    requires Reaches(p, a, b) && Reaches(p, b, c)
    ensures Reaches(p, a, c)
  {
    var x :| Joins(p, x, a, b);
    var y :| Joins(p, y, b, c);
    var z := x + y[1..];
    assert forall i :: |x| <= i < |z| ==> z[i] == y[i - |x| + 1];
    forall i | 0 <= i < |z| - 1 ensures Edge(p, z[i], z[i + 1]) {
      if i >= |x| - 1 { assert Edge(p, y[i - |x| + 1], y[i - |x| + 2]); }
    }
    assert Joins(p, z, a, c);
  }

  lemma ReachesByEdge<C(!new)>(p: Parents<C>, a: C, b: C)
    requires Edge(p, a, b)
    ensures Reaches(p, a, b) && ReachesProperly(p, a, b)
  {
    assert Joins(p, [a, b], a, b);
    ReachesSelf(p, b);
  }

  /** The first edge of a path that goes somewhere else. */
  lemma ReachesUnfold<C(!new)>(p: Parents<C>, a: C, b: C)
    ensures Reaches(p, a, b) <==> a == b || ReachesProperly(p, a, b)
  {
    if a == b { ReachesSelf(p, a); }
    if Reaches(p, a, b) && a != b {
      var x :| Joins(p, x, a, b);
      assert Edge(p, a, x[1]);
      forall i | 0 <= i < |x[1..]| - 1 ensures Edge(p, x[1..][i], x[1..][i + 1]) {
        assert Edge(p, x[i + 1], x[i + 2]);
      }
      assert Joins(p, x[1..], x[1], b);
    }
    if ReachesProperly(p, a, b) {
      var m :| Edge(p, a, m) && Reaches(p, m, b);
      ReachesByEdge(p, a, m);
      ReachesTrans(p, a, m, b);
    }
  }

  /** A set closed under parents that holds `a` holds everything `a` reaches. */
  lemma ClosedHoldsReach<C(!new)>(p: Parents<C>, s: set<C>, a: C, b: C)
    requires a in s && Reaches(p, a, b)
    requires forall x, y :: x in s && Edge(p, x, y) ==> y in s
    ensures b in s
  {
    var path :| Joins(p, path, a, b);
    var i := 0;
    while i < |path| - 1
      invariant 0 <= i < |path| && path[i] in s
    {
      assert Edge(p, path[i], path[i + 1]);
      i := i + 1;
    }
  }

  /** Every commit reachable from `h` is known, and none lies on a cycle. */
  ghost predicate Sound<C(!new)>(p: Parents<C>, h: C) {
    && (forall c :: Reaches(p, h, c) ==> c in p)
    && (forall c :: Reaches(p, h, c) ==> !ReachesProperly(p, c, c))
  }

  function Commits<C(==)>(s: seq<C>): set<C> {
    set c | c in s
  }

  /** The commits reachable from `h`; finite because only parents of known commits can be. */
  ghost function ReachSet<C(!new)>(p: Parents<C>, h: C): (r: set<C>)
    ensures forall c :: c in r <==> Reaches(p, h, c)
  {
    var all := {h} + set a, b | a in p && b in p[a] :: b;
    forall c | Reaches(p, h, c) ensures c in all {
      ClosedHoldsReach(p, all, h, c);
    }
    set c | c in all && Reaches(p, h, c)
  }

  // ---- topological order ------------------------------------------------------------------

  /** Every element's parents come before it. */
  ghost predicate Finished<C(!new)>(p: Parents<C>, order: seq<C>) {
    forall i, y :: 0 <= i < |order| && Edge(p, order[i], y) ==> y in order[..i]
  }

  predicate NoDuplicates<C(==)>(order: seq<C>) {
    forall i, j :: 0 <= i < j < |order| ==> order[i] != order[j]
  }

  lemma {:induction false} StepsBack<C(!new)>(p: Parents<C>, order: seq<C>, i: nat, b: C)
    requires Finished(p, order) && i < |order| && ReachesProperly(p, order[i], b)
    ensures b in order[..i]
    decreases i
  {
    var m :| Edge(p, order[i], m) && Reaches(p, m, b);
    assert m in order[..i];
    var j :| 0 <= j < i && order[j] == m;
    ReachesUnfold(p, m, b);
    if m != b { StepsBack(p, order, j, b); }
  }

  /** A list in finishing order holds everything its elements reach, and no cycle. */
  lemma FinishedIsAcyclic<C(!new)>(p: Parents<C>, order: seq<C>, a: C, b: C)
    requires Finished(p, order) && NoDuplicates(order) && a in order && Reaches(p, a, b)
    ensures b in order && !ReachesProperly(p, a, a)
  {
    var i :| 0 <= i < |order| && order[i] == a;
    ReachesUnfold(p, a, b);
    if ReachesProperly(p, a, b) { StepsBack(p, order, i, b); }
    if ReachesProperly(p, a, a) { StepsBack(p, order, i, a); }
  }
}
