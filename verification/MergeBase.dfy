/** Ancestry queries and the merge base of two commits, over the bounded walk of module Walk. */
module MergeBase {
  import opened Basics
  import opened Dag
  import opened CommonAncestors
  import opened Walk

  datatype Answer<T, C> = Answer(value: T) | Failed(why: Outcome<C>)

  /** Whether `ancestor` is `descendant` or reachable from it. An answer is exact; a failure names a
      damaged or oversized history, a passed deadline or a failed call. */
  method IsAncestor<C(!new,==)>(p: Parents<C>, out: Outside<C>, ancestor: C, descendant: C, max: nat)
    returns (r: Answer<bool, C>)
    requires Truth(p, out)
    ensures r.Answer? ==> (r.value <==> Reaches(p, descendant, ancestor))
    ensures r.Failed? ==> Truthful(p, out, descendant, {}, max, r.why)
    ensures Bounded(p, descendant, max) && r.Failed? ==> Interrupted(r.why)
  {
    var walk := new Walk(p, out, max);
    var outcome, order, record := walk.Dfs(descendant, {ancestor});
    SearchAnswersReachability(p, out, descendant, ancestor, max, outcome);
    r := match outcome
      case Hit => Answer(true)
      case Complete => Answer(false)
      case _ => Failed(outcome);
  }

  /** Every reachable commit with its parents. */
  ghost predicate IsAncestry<C(!new)>(p: Parents<C>, head: C, a: Parents<C>) {
    && Sound(p, head) && a.Keys == ReachSet(p, head)
    && forall c :: c in a ==> c in p && a[c] == p[c]
  }

  method Ancestry<C(!new,==)>(p: Parents<C>, out: Outside<C>, head: C, max: nat) returns (r: Answer<Parents<C>, C>)
    requires Truth(p, out)
    ensures r.Answer? ==> IsAncestry(p, head, r.value)
    ensures r.Failed? ==> Truthful(p, out, head, {}, max, r.why)
    ensures r.Answer? ==> Bounded(p, head, max)
    ensures Bounded(p, head, max) && r.Failed? ==> Interrupted(r.why)
  {
    var walk := new Walk(p, out, max);
    var outcome, order, record := walk.Dfs(head, {});
    CompletesExactlyWhenSoundAndBounded(p, out, head, max, outcome);
    r := if outcome.Complete? then Answer(record) else Failed(outcome);
  }

  // ---- best common ancestors --------------------------------------------------------------

  /** What is marked or still to mark is dominated, and nothing dominated is missed. */
  ghost predicate MarkingOk<C(!new)>(p: Parents<C>, ha: C, hb: C, common: set<C>, marked: set<C>, stack: seq<C>) {
    && (forall c :: c in marked || c in stack ==> Dominated(p, ha, hb, c))
    && (forall x, c :: (x in marked || x in common) && Edge(p, x, c) ==> c in marked || c in stack)
  }

  method FlatParents<C(!new,==)>(a: Parents<C>, from: set<C>) returns (stack: seq<C>)
    requires from <= a.Keys
    ensures forall c :: c in stack <==> exists x :: x in from && Edge(a, x, c)
  {
    stack := [];
    var left := from;
    while left != {}
      invariant left <= from
      invariant forall c :: c in stack <==> exists x :: x in from - left && Edge(a, x, c)
      decreases |left|
    {
      SomeMember(left);
      var x :| x in left;
      ghost var before, gone := stack, from - left;
      stack, left := stack + a[x], left - {x};
      assert from - left == gone + {x};
      forall c ensures c in stack <==> exists y :: y in from - left && Edge(a, y, c) {
        assert c in stack <==> c in before || Edge(a, x, c);
      }
    }
    assert from - left == from;
  }

  lemma StartMarking<C(!new)>(p: Parents<C>, ha: C, hb: C, a: Parents<C>, common: set<C>, stack: seq<C>)
    requires IsAncestry(p, ha, a) && common <= a.Keys
    requires forall c :: c in common <==> Common(p, ha, hb, c)
    requires forall c :: c in stack <==> exists x :: x in common && Edge(a, x, c)
    ensures MarkingOk(p, ha, hb, common, {}, stack)
    ensures forall c :: c in stack ==> c in a
  {
    forall c | c in stack ensures Dominated(p, ha, hb, c) && c in a {
      var x :| x in common && Edge(a, x, c);
      assert Edge(p, x, c);
      ReachesByEdge(p, x, c);
      ReachesTrans(p, ha, x, c);
      assert Common(p, ha, hb, x);
      assert c in ReachSet(p, ha);
    }
    forall x, c | x in common && Edge(p, x, c) ensures c in stack {
      assert Edge(a, x, c);
    }
  }

  lemma MarkKeeps<C(!new)>(p: Parents<C>, ha: C, hb: C, a: Parents<C>, common: set<C>, marked: set<C>,
                  rest: seq<C>, c: C)
    requires IsAncestry(p, ha, a) && c in a && MarkingOk(p, ha, hb, common, marked, rest + [c])
    ensures MarkingOk(p, ha, hb, common, marked + {c}, rest + a[c])
    ensures forall y :: y in a[c] ==> y in a
  {
    assert c in rest + [c];
    var d :| Common(p, ha, hb, d) && ReachesProperly(p, d, c);
    var m :| Edge(p, d, m) && Reaches(p, m, c);
    forall y | y in a[c] ensures Dominated(p, ha, hb, y) && y in a {
      assert Edge(p, c, y);
      ReachesByEdge(p, c, y);
      ReachesTrans(p, m, c, y);
      assert ReachesProperly(p, d, y);
      ReachesTrans(p, ha, c, y);
      assert y in ReachSet(p, ha);
    }
  }

  lemma MarkedIsDominated<C(!new)>(p: Parents<C>, ha: C, hb: C, common: set<C>, marked: set<C>, c: C)
    requires MarkingOk(p, ha, hb, common, marked, [])
    requires forall x :: x in common <==> Common(p, ha, hb, x)
    ensures c in marked <==> Dominated(p, ha, hb, c)
  {
    if Dominated(p, ha, hb, c) {
      var d :| Common(p, ha, hb, d) && ReachesProperly(p, d, c);
      var m :| Edge(p, d, m) && Reaches(p, m, c);
      ClosedHoldsReach(p, marked, m, c);
    }
  }

  /** The marking loop: pop, and on the first visit mark and push the parents. */
  method MarkAll<C(!new,==)>(a: Parents<C>, ghost common: set<C>, start: seq<C>, ghost p: Parents<C>, ghost ha: C,
                             ghost hb: C)
    returns (marked: set<C>)
    requires IsAncestry(p, ha, a) && MarkingOk(p, ha, hb, common, {}, start) && forall c :: c in start ==> c in a
    ensures MarkingOk(p, ha, hb, common, marked, [])
  {
    var stack := start;
    marked := {};
    while stack != []
      invariant MarkingOk(p, ha, hb, common, marked, stack)
      invariant marked <= a.Keys && forall c :: c in stack ==> c in a
      decreases a.Keys - marked, |stack|
    {
      var c := stack[|stack| - 1];
      var rest := stack[..|stack| - 1];
      assert stack == rest + [c];
      if c !in marked {
        MarkKeeps(p, ha, hb, a, common, marked, rest, c);
        marked, stack := marked + {c}, rest + a[c];
      } else {
        stack := rest;
      }
    }
  }

  /** What is left unmarked is exactly the maximal common ancestors. */
  method BestCommonAncestors<C(!new,==)>(a: Parents<C>, b: Parents<C>, ghost p: Parents<C>, ghost ha: C, ghost hb: C)
    returns (best: set<C>)
    requires IsAncestry(p, ha, a) && IsAncestry(p, hb, b)
    ensures forall c :: c in best <==> Best(p, ha, hb, c)
  {
    var common := a.Keys * b.Keys;
    var stack := FlatParents(a, common);
    assert forall c :: c in common <==> Common(p, ha, hb, c);
    StartMarking(p, ha, hb, a, common, stack);
    var marked := MarkAll(a, common, stack, p, ha, hb);
    forall c { MarkedIsDominated(p, ha, hb, common, marked, c); }
    best := common - marked;
  }

  // ---- merge analysis ---------------------------------------------------------------------

  lemma SomeMember<C(!new)>(s: set<C>)
    requires s != {}
    ensures exists x :: x in s
  {
    assert (forall x :: x !in s) ==> s == {};
  }

  datatype Base<C> = Unique(id: C) | Ambiguous(ids: set<C>) | Unrelated
  datatype Relation<C> = Equal | SourceContained | FastForward | Divergent(base: Base<C>)
  datatype Analysis<C> = Analysis(relation: Relation<C>, ahead: nat, behind: nat)

  function ClassifyBase<C(!new,==)>(best: set<C>): Base<C> {
    if |best| == 0 then Unrelated
    else if |best| == 1 then
      SomeMember(best);
      SingletonMember(best);
      var id :| id in best;
      Unique(id)
    else Ambiguous(best)
  }

  /** What a merge base says about the histories. */
  ghost predicate BaseOk<C(!new)>(p: Parents<C>, a: C, b: C, base: Base<C>) {
    match base
    case Unrelated => forall c :: !Common(p, a, b, c)
    case Unique(id) =>
      && Best(p, a, b, id) && (forall c :: Best(p, a, b, c) ==> c == id)
      && forall c :: Common(p, a, b, c) ==> Reaches(p, id, c)
    case Ambiguous(ids) =>
      |ids| >= 2 && forall c :: c in ids <==> Best(p, a, b, c)
  }

  /** What an analysis says about the histories; the cases exclude one another. */
  ghost predicate AnalysisOk<C(!new)>(p: Parents<C>, target: C, source: C, r: Analysis<C>) {
    && r.ahead == |ReachSet(p, source) - ReachSet(p, target)|
    && r.behind == |ReachSet(p, target) - ReachSet(p, source)|
    && (r.relation.Equal? <==> target == source)
    && (r.relation.SourceContained? <==> ReachesProperly(p, target, source))
    && (r.relation.FastForward? <==> ReachesProperly(p, source, target))
    && (r.relation.Divergent? ==> BaseOk(p, target, source, r.relation.base))
  }

  lemma BestIsBase<C(!new)>(p: Parents<C>, a: C, b: C, best: set<C>)
    requires Sound(p, a) && forall c :: c in best <==> Best(p, a, b, c)
    ensures BaseOk(p, a, b, ClassifyBase(best))
  {
    if |best| < 2 {
      SingletonMember(best);
      forall c | Common(p, a, b, c) ensures |best| == 1 && Reaches(p, ClassifyBase(best).id, c) {
        var d := EveryCommonIsBelowABest(p, a, b, c);
        assert d in best;
      }
    }
  }

  method Analyze<C(!new,==)>(p: Parents<C>, first: Outside<C>, second: Outside<C>, target: C, source: C, max: nat)
    returns (r: Answer<Analysis<C>, C>)
    requires Truth(p, first) && Truth(p, second)
    ensures r.Answer? ==> AnalysisOk(p, target, source, r.value)
    ensures r.Failed? ==> Truthful(p, first, target, {}, max, r.why) || Truthful(p, second, source, {}, max, r.why)
    ensures r.Answer? ==> Bounded(p, target, max) && Bounded(p, source, max)
    ensures Bounded(p, target, max) && Bounded(p, source, max) && r.Failed? ==> Interrupted(r.why)
  {
    var t := Ancestry(p, first, target, max);
    if t.Failed? { return Failed(t.why); }
    ReachesUnfold(p, target, source);
    ReachesUnfold(p, source, target);
    ReachesSelf(p, target);
    if target == source {
      assert ReachSet(p, source) - ReachSet(p, target) == {};
      return Answer(Analysis(Equal, 0, 0));
    }
    var s := Ancestry(p, second, source, max);
    if s.Failed? { return Failed(s.why); }
    ReachesSelf(p, source);
    NotBoth(p, target, source);
    var ahead, behind := |s.value.Keys - t.value.Keys|, |t.value.Keys - s.value.Keys|;
    if source in t.value {
      return Answer(Analysis(SourceContained, ahead, behind));
    } else if target in s.value {
      return Answer(Analysis(FastForward, ahead, behind));
    } else {
      var best := BestCommonAncestors(t.value, s.value, p, target, source);
      BestIsBase(p, target, source, best);
      return Answer(Analysis(Divergent(ClassifyBase(best)), ahead, behind));
    }
  }
}
