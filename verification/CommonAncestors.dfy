/** The best common ancestors of two commits: the maximal elements of what both reach. */
module CommonAncestors {
  import opened Dag

  ghost predicate Common<C(!new)>(p: Parents<C>, a: C, b: C, c: C) {
    Reaches(p, a, c) && Reaches(p, b, c)
  }

  /** Some common ancestor has `c` among its proper ancestors. */
  ghost predicate Dominated<C(!new)>(p: Parents<C>, a: C, b: C, c: C) {
    exists d :: Common(p, a, b, d) && ReachesProperly(p, d, c)
  }

  /** The maximal elements of the common ancestors. */
  ghost predicate Best<C(!new)>(p: Parents<C>, a: C, b: C, c: C) {
    Common(p, a, b, c) && !Dominated(p, a, b, c)
  }

  lemma BestAreIncomparable<C(!new)>(p: Parents<C>, a: C, b: C, x: C, y: C)
    requires Best(p, a, b, x) && Best(p, a, b, y) && Reaches(p, x, y)
    ensures x == y
  {
    ReachesUnfold(p, x, y);
  }

  /** The common ancestors strictly above `c`. */
  ghost function Above<C(!new)>(p: Parents<C>, a: C, b: C, c: C): set<C> {
    set x | x in ReachSet(p, a) && Common(p, a, b, x) && ReachesProperly(p, x, c)
  }

  lemma ProperThenReach<C(!new)>(p: Parents<C>, x: C, y: C, z: C)
    requires ReachesProperly(p, x, y) && Reaches(p, y, z)
    ensures ReachesProperly(p, x, z)
  {
    var m :| Edge(p, x, m) && Reaches(p, m, y);
    ReachesTrans(p, m, y, z);
  }

  lemma {:induction false} EveryCommonIsBelowABest<C(!new)>(p: Parents<C>, a: C, b: C, c: C) returns (d: C)
    requires Sound(p, a) && Common(p, a, b, c)
    ensures Best(p, a, b, d) && Reaches(p, d, c)
    decreases Above(p, a, b, c)
  {
    if !Dominated(p, a, b, c) {
      ReachesSelf(p, c);
      d := c;
    } else {
      var e :| Common(p, a, b, e) && ReachesProperly(p, e, c);
      ReachesUnfold(p, e, c);
      forall x | x in Above(p, a, b, e) ensures x in Above(p, a, b, c) {
        ProperThenReach(p, x, e, c);
      }
      assert e in ReachSet(p, a);
      assert e in Above(p, a, b, c) && e !in Above(p, a, b, e);
      d := EveryCommonIsBelowABest(p, a, b, e);
      ReachesTrans(p, d, e, c);
    }
  }

  /** When one head contains the other, the contained head is the only best common ancestor. */
  lemma ContainedHeadIsTheBase<C(!new)>(p: Parents<C>, a: C, b: C, c: C)
    requires Sound(p, b) && Reaches(p, b, a)
    ensures Best(p, a, b, c) <==> c == a
    ensures Best(p, b, a, c) <==> c == a
  {
    ReachesSelf(p, a);
    assert Common(p, a, b, a);
    if Dominated(p, a, b, a) {
      var d :| Common(p, a, b, d) && ReachesProperly(p, d, a);
      ReachesUnfold(p, a, d);
      if a != d {
        ReachesUnfold(p, d, a);
        ProperThenReach(p, a, d, a);
      }
    }
    ReachesUnfold(p, a, c);
    BestSymmetric(p, a, b, a);
    BestSymmetric(p, a, b, c);
  }

  lemma BestSymmetric<C(!new)>(p: Parents<C>, a: C, b: C, c: C)
    ensures Best(p, a, b, c) <==> Best(p, b, a, c)
  {
    if Dominated(p, a, b, c) {
      var d :| Common(p, a, b, d) && ReachesProperly(p, d, c);
      assert Common(p, b, a, d);
    }
    if Dominated(p, b, a, c) {
      var d :| Common(p, b, a, d) && ReachesProperly(p, d, c);
      assert Common(p, a, b, d);
    }
  }

  lemma NotBoth<C(!new)>(p: Parents<C>, a: C, b: C)
    requires Sound(p, a) && Reaches(p, a, a)
    ensures !(ReachesProperly(p, a, b) && Reaches(p, b, a))
  {
    if ReachesProperly(p, a, b) && Reaches(p, b, a) { ProperThenReach(p, a, b, a); }
  }
}
