/** What the generator expects of a merge preview, stated on a history rather than by how it is
    computed, and what that implies once a merge has been applied. */
module Previews {
  import opened Basics
  import opened Dag
  import opened CommonAncestors
  import opened ThreeWay
  import opened History

  datatype Class =
    | AlreadyEqual
    | AlreadyContained
    | AmbiguousBase(best: set<Label>)
    | Conflicted
    | NoChange
    | FastForward
    | Divergent

  datatype Preview = Preview(kind: Class, base: Option<Label>, ahead: nat, behind: nat, conflicts: nat,
                             merged: Option<State>)

  /** A branch head: its commit and that commit's state. */
  datatype Head = Head(commit: Label, state: State)

  datatype Request = Request(strategy: Strategy, explicit: Option<Label>, designed: set<bv64>)

  type Retained = map<Label, State>

  ghost predicate Chosen(p: Parents<Label>, t: Label, s: Label, explicit: Option<Label>, base: Label) {
    if Reaches(p, s, t) then base == t
    else
      && Best(p, t, s, base)
      && (explicit.Some? ==> base == explicit.value)
      && (explicit.None? ==> forall c :: Best(p, t, s, c) ==> c == base)
  }

  /** The premise the generator asserts before it trusts its formula. */
  predicate Premise(retained: Retained, base: Label, t: State, s: State, designed: set<bv64>) {
    base in retained && designed == ConflictSlots(retained[base], t, s)
  }

  /** A preview that found a base. */
  ghost predicate MergedOk(p: Parents<Label>, b: State, t: Head, s: Head, q: Request, v: Preview) {
    && v.merged == (
      if Refused(q.strategy, b, t.state, s.state) then None else Some(SlotMerge(q.strategy, b, t.state, s.state)))
    && v.kind == (
      if v.merged.None? then Conflicted
      else if v.merged.value == t.state && b == s.state then NoChange
      else if Reaches(p, s.commit, t.commit) then FastForward
      else Divergent)
    && v.conflicts == (if Reaches(p, s.commit, t.commit) then 0 else |ConflictSlots(b, t.state, s.state)|)
  }

  /** A preview that looked no further. */
  predicate Plain(v: Preview) { v.base.None? && v.merged.None? && v.conflicts == 0 }

  /** What a preview, or its refusal, says about the histories and the states. */
  ghost predicate PreviewOk(p: Parents<Label>, retained: Retained, t: Head, s: Head, q: Request, r: Result<Preview>) {
    match r
    case Err(_) =>
      && t.commit != s.commit && !Reaches(p, t.commit, s.commit)
      && (|| (q.explicit.Some? && !Reaches(p, s.commit, t.commit) && !Best(p, t.commit, s.commit, q.explicit.value))
          || (exists base :: Chosen(p, t.commit, s.commit, q.explicit, base)
                          && !Premise(retained, base, t.state, s.state, q.designed)))
    case Ok(v) =>
      && v.ahead == |ReachSet(p, s.commit) - ReachSet(p, t.commit)|
      && v.behind == |ReachSet(p, t.commit) - ReachSet(p, s.commit)|
      && match v.kind
         case AlreadyEqual => Plain(v) && t.commit == s.commit
         case AlreadyContained => Plain(v) && t.commit != s.commit && Reaches(p, t.commit, s.commit)
         case AmbiguousBase(best) =>
           && Plain(v) && !Reaches(p, t.commit, s.commit) && !Reaches(p, s.commit, t.commit) && q.explicit.None?
           && |best| >= 2 && forall c :: c in best <==> Best(p, t.commit, s.commit, c)
         case _ =>
           && t.commit != s.commit && !Reaches(p, t.commit, s.commit)
           && v.base.Some? && Chosen(p, t.commit, s.commit, q.explicit, v.base.value)
           && Premise(retained, v.base.value, t.state, s.state, q.designed)
           && MergedOk(p, retained[v.base.value], t, s, q, v)
  }

  // ---- after an applied merge ------------------------------------------------------------------

  /** The history after integrating `s` into `t` as commit `l`. */
  function Integrated(p: Parents<Label>, l: Label, t: Label, s: Label): Parents<Label> {
    p[l := [t, s]]
  }

  /** Previewing the same source again finds it contained. */
  lemma SecondPreviewIsContained(order: seq<Label>, p: Parents<Label>, retained: Retained, l: Label, t: Label,
                                 s: Head, m: State, q: Request, r: Result<Preview>)
    requires Rooted(order, p) && l !in order && t in order && s.commit in order
    requires PreviewOk(Integrated(p, l, t, s.commit), retained, Head(l, m), s, q, r)
    ensures r.Ok? && r.value.kind == AlreadyContained && r.value.ahead == 0
  {
    var p' := Integrated(p, l, t, s.commit);
    assert Edge(p', l, s.commit);
    ReachesByEdge(p', l, s.commit);
    forall c | c in ReachSet(p', s.commit) ensures c in ReachSet(p', l) { ReachesTrans(p', l, s.commit, c); }
    assert ReachSet(p', s.commit) - ReachSet(p', l) == {};
  }

  /** The reverse direction is a fast-forward from the old source head: no conflict, the merged
      state is the integration state, and nothing changes exactly when the states are equal. */
  lemma ReversePreviewFastForwards(order: seq<Label>, p: Parents<Label>, retained: Retained, l: Label, t: Label,
                                   s: Head, m: State, q: Request, r: Result<Preview>)
    requires Rooted(order, p) && l !in order && t in order && s.commit in order
    requires s.commit in retained && retained[s.commit] == s.state
    requires PreviewOk(Integrated(p, l, t, s.commit), retained, s, Head(l, m), q, r)
    ensures r.Ok? <==> q.designed == {}
    ensures r.Ok? ==>
      && r.value.base == Some(s.commit) && r.value.conflicts == 0 && r.value.merged == Some(m)
      && r.value.behind == 0
      && r.value.kind == if m == s.state then NoChange else FastForward
  {
    var p' := Integrated(p, l, t, s.commit);
    assert Edge(p', l, s.commit);
    ReachesByEdge(p', l, s.commit);
    OldReachIsStable(order, p, l, [t, s.commit], s.commit, l);
    if Reaches(p, s.commit, l) { KnownIsClosed(order, p, s.commit, l); }
    assert !Reaches(p', s.commit, l);
    UnchangedSideYields(q.strategy, s.state, m);
    assert Chosen(p', s.commit, l, q.explicit, s.commit);
    forall c | c in ReachSet(p', s.commit) ensures c in ReachSet(p', l) { ReachesTrans(p', l, s.commit, c); }
    assert ReachSet(p', s.commit) - ReachSet(p', l) == {};
  }
}
