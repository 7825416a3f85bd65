/** The protocol is not safe by doing nothing: a stream with work that is due can be brought up to
    its newest event, and a stream being disabled can be fenced and disabled. */
module ProjectorAdvance {
  import opened Basics
  import opened Projection
  import opened Projector
  import opened ProjectorSafety
  import opened ProjectorTheorems
  import opened ProjectorProgress
  import opened ProjectorRebuild
  import opened ProjectorStreams

  predicate Good(s: State) { Inv(s) && Grounded(s) && Booked(s) }

  lemma Proceed(s: State, s': State, step: Step)
    requires Good(s) && Next(s, s', step)
    ensures Good(s')
  {
    NextKeeps(s, s', step);
    NextGrounds(s, s', step);
    NextBooks(s, s', step);
  }

  /** Nobody's lease is running. */
  predicate Free(s: State, k: StreamKey) {
    k in s.rows && k in s.refs && (s.rows[k].owner.Some? ==> s.rows[k].until < s.now)
  }

  predicate Pends(s: State, k: StreamKey, e: int)
    requires k in s.rows && k in s.refs
  {
    e in s.refs[k].events && (s.rows[k].projected.Some? ==> s.rows[k].projected.value.1 < e)
  }

  /** The newest event of the ref. */
  predicate Newest(ref: Ref, e: int) {
    e in ref.events && forall f :: f in ref.events ==> f <= e
  }

  lemma {:induction false} SomeNewest(events: set<int>, e: int) returns (m: int)
    requires e in events
    ensures m in events && e <= m && forall f :: f in events ==> f <= m
    decreases |events|
  {
    m := e;
    if exists f :: f in events && f > e {
      var f :| f in events && f > e;
      var fewer := events - {e};
      m := SomeNewest(fewer, f);
      assert forall g :: g in events ==> g in fewer || g == e;
    }
  }

  predicate Untouched(s: State, s': State) {
    s'.refs == s.refs && s'.targets == s.targets && s'.log == s.log && s'.now == s.now
  }

  lemma Claiming(s: State, k: StreamKey, owner: string, ttl: nat) returns (s': State, c: ClaimId)
    requires Good(s) && Free(s, k)
    requires s.rows[k].status == Disabling || (s.rows[k].status == Active && exists e :: Pends(s, k, e))
    ensures Next(s, s', Claim(k, owner, ttl, Pending)) && Good(s') && Untouched(s, s')
    ensures c.key == k && Leased(s', c) && s'.rows[k].until == s.now + ttl && c in s'.acts
    ensures s'.rows[k].(owner := None, until := 0, epoch := 0) == s.rows[k].(owner := None, until := 0, epoch := 0)
    ensures s'.acts[c] == Act(owner, s.rows[k].status == Disabling, Pending,
                              if s.rows[k].projected.Some? then Some(s.rows[k].projected.value.1) else None, Claimed)
  {
    var row := s.rows[k];
    c := ClaimId(k, row.epoch + 1);
    s' := s.(rows := s.rows[k := row.(owner := Some(owner), until := s.now + ttl, epoch := row.epoch + 1)],
             acts := s.acts[c := Act(owner, row.status == Disabling, Pending,
                                     if row.projected.Some? then Some(row.projected.value.1) else None, Claimed)]);
    if row.status == Active {
      var e :| Pends(s, k, e);
      assert e in s.refs[k].events && (row.projected.Some? ==> e > row.projected.value.1);
    }
    assert NextClaim(s, s', k, owner, ttl, Pending);
    Proceed(s, s', Claim(k, owner, ttl, Pending));
  }

  /** A claim that was taken for pending work finds the newest event. */
  lemma FindingWork(s: State, c: ClaimId, e: int) returns (s': State)
    requires Good(s) && c in s.acts && s.acts[c].phase == Claimed && !s.acts[c].disabling && s.acts[c].mode == Pending
    requires c.key in s.refs && Newest(s.refs[c.key], e)
    requires s.acts[c].recorded.Some? ==> s.acts[c].recorded.value < e
    ensures
      var w := Work(s.refs[c.key].CommitAt(e).value, e, |s.refs[c.key].commits|);
      s' == Moved(s, c, Working(w)) && Next(s, s', FindWork(c, w)) && Good(s')
  {
    var w := Work(s.refs[c.key].CommitAt(e).value, e, |s.refs[c.key].commits|);
    s' := Moved(s, c, Working(w));
    Proceed(s, s', FindWork(c, w));
  }

  lemma Observing(s: State, c: ClaimId) returns (s': State)
    requires Good(s) && c in s.acts && s.acts[c].phase.Working? && c.key in s.rows
    ensures GraphOf(s, c) in s.targets && GraphOf(s, c) in s.log
    ensures s' == Moved(s, c, Observed(s.acts[c].phase.work, Look(s, c), |s.log[GraphOf(s, c)]|))
    ensures Next(s, s', Observe(c)) && Good(s')
  {
    assert RowOk(s, c.key);
    s' := Moved(s, c, Observed(s.acts[c].phase.work, Look(s, c), |s.log[GraphOf(s, c)]|));
    Proceed(s, s', Observe(c));
  }

  /** Unless an operator must decide, the table has the claim write its work item or acknowledge it. */
  lemma Concluding(s: State, c: ClaimId) returns (s': State)
    requires Good(s) && c in s.acts && s.acts[c].phase.Observed? && s.acts[c].mode == Pending && c.key in s.refs
    requires
      var p := s.acts[c].phase;
      Newest(s.refs[c.key], p.work.version) && p.work.head == |s.refs[c.key].commits|
      && Spares(c.key, |s.refs[c.key].commits|, p.obs.terms)
    ensures Next(s, s', Conclude(c)) && Good(s') && c in s'.acts && s' == Moved(s, c, s'.acts[c].phase)
    ensures
      var p, q := s.acts[c].phase, s'.acts[c].phase;
      || q == Agreed(p.work.commit, p.work.version)
      || (q.Planned? && q.intent.Project? && q.intent.work == p.work && q.obs == p.obs)
  {
    var p, view := s.acts[c].phase, ViewOf(s, c);
    LeavesOthersAndAheadAlone(view, p.obs);
    AcknowledgesExactlyGenuineState(view, p.obs);
    assert ActGrounded(s, c);
    var known := |s.refs[c.key].commits|;
    s' := Moved(s, c,
      match Decide(view, p.obs)
      case AlreadyProjected => Agreed(p.work.commit, p.work.version)
      case AcknowledgeBeyond(commit, version) => Agreed(commit, version)
      case WriteState(why) => Planned(Project(p.work, ModeOf(why), why.Some?), p.obs, p.seen, known)
      case RecoveryRequired(_) => Done);
    Proceed(s, s', Conclude(c));
  }

  /** The claim's request is on the wire and meets the marker it was planned from. */
  predicate Meets(s: State, c: ClaimId) {
    && c in s.acts && c.key in s.rows && s.acts[c].phase == Sent && c in s.wire
    && GraphOf(s, c) in s.targets && s.wire[c].graph == GraphOf(s, c)
    && s.wire[c].obs.terms == s.targets[GraphOf(s, c)].terms
  }

  /** It lands, and the target shows what it carried. */
  lemma LandingWell(s: State, c: ClaimId, size: nat) returns (s': State, s'': State)
    requires Good(s) && Meets(s, c)
    ensures Next(s, s', Land(c, size)) && Next(s', s'', ReadBack(c, size)) && Good(s'')
    ensures s''.rows == s.rows && s''.refs == s.refs && s''.now == s.now && s''.wire == s.wire
    ensures c in s''.acts && s''.acts == s.acts[c := s''.acts[c]]
    ensures s''.acts[c] == s.acts[c].(phase := s''.acts[c].phase) && s''.acts[c].phase.Verified?
    ensures
      var r, t := s.wire[c], s''.acts[c].phase.terms;
      r.intent.Project? ==>
        t.body.Well? && t.body.marker.commit == r.intent.work.commit && t.body.marker.version == r.intent.work.version
  {
    s' := Landing(s, c, size);
    Proceed(s, s', Land(c, size));
    var r := s.wire[c];
    assert RequestOk(s, c);
    s'' := Moved(s', c, Verified(s'.targets[r.graph].terms, size));
    assert NextReadBack(s', s'', c, size);
    Proceed(s', s'', ReadBack(c, size));
  }

  lemma Acknowledging(s: State, c: ClaimId, commit: Commit, version: int) returns (s': State)
    requires Good(s) && c in s.acts && Leased(s, c) && c.key in s.refs && !s.acts[c].disabling
    requires
      var p := s.acts[c].phase;
      || p == Agreed(commit, version)
      || (p.Verified? && p.terms.body.Well? && p.terms.body.marker.commit == commit
          && p.terms.body.marker.version == version)
    requires s.refs[c.key].Names(commit, version)
    requires s.rows[c.key].projected.Some? ==> s.rows[c.key].projected.value.1 <= version
    ensures Next(s, s', Acknowledge(c)) && Good(s') && s'.refs == s.refs
    ensures c.key in s'.rows && s'.rows[c.key].projected == Some((commit, version)) && s'.rows[c.key].owner.None?
  {
    var row := s.rows[c.key];
    s' := Moved(s, c, Done).(rows := s.rows[c.key :=
      row.(projected := Some((commit, version)), owner := None,
           status := if row.status == Disabling then Disabling else Active)]);
    Proceed(s, s', Acknowledge(c));
  }

  // ---- whole passes ---------------------------------------------------------------------------

  /** A continuation of `s` whose last state is `e`. */
  ghost predicate Leads(ss: seq<State>, ts: seq<Step>, s: State, e: State) {
    Path(ss, ts) && ss[0] == s && ss[|ts|] == e
  }

  lemma Single(s: State, step: Step, e: State) returns (ss: seq<State>, ts: seq<Step>)
    requires Next(s, e, step)
    ensures Leads(ss, ts, s, e)
  {
    ss, ts := [s, e], [step];
  }

  lemma Extend(ss: seq<State>, ts: seq<Step>, s: State, e: State, step: Step, e': State)
    returns (ss': seq<State>, ts': seq<Step>)
    requires Leads(ss, ts, s, e) && Next(e, e', step)
    ensures Leads(ss', ts', s, e')
  {
    ss', ts' := ss + [e'], ts + [step];
    forall i | 0 <= i < |ts'| ensures Next(ss'[i], ss'[i + 1], ts'[i]) {
      if i < |ts| { assert Next(ss[i], ss[i + 1], ts[i]); }
    }
  }

  /** A claim finds the newest event and observes its target. */
  lemma LookingUp(s: State, c: ClaimId, e: int) returns (m: State, o: State)
    requires Good(s) && c in s.acts && s.acts[c].phase == Claimed && !s.acts[c].disabling && s.acts[c].mode == Pending
    requires c.key in s.refs && Newest(s.refs[c.key], e) && c.key in s.rows
    requires s.acts[c].recorded.Some? ==> s.acts[c].recorded.value < e
    ensures GraphOf(s, c) in s.targets && GraphOf(s, c) in s.log && Good(o)
    ensures
      var w := Work(s.refs[c.key].CommitAt(e).value, e, |s.refs[c.key].commits|);
      && Next(s, m, FindWork(c, w)) && Next(m, o, Observe(c))
      && o == Moved(s, c, Observed(w, Look(s, c), |s.log[GraphOf(s, c)]|))
  {
    m := FindingWork(s, c, e);
    o := Observing(m, c);
  }

  /** Up to the claim's observation. */
  lemma ReachObservation(s: State, k: StreamKey, owner: string, ttl: nat, e: int)
    returns (ss: seq<State>, ts: seq<Step>, o: State, c: ClaimId)
    requires Good(s) && Free(s, k) && s.rows[k].status == Active && Newest(s.refs[k], e) && Pends(s, k, e)
    requires s.rows[k].graph in s.targets
    ensures Leads(ss, ts, s, o) && Good(o) && Untouched(s, o) && c in o.acts && Took(s, o, k, c, s.now + ttl)
    ensures
      && o.acts[c].phase.Observed? && o.acts[c].mode == Pending
      && o.acts[c].phase.work == Work(s.refs[k].CommitAt(e).value, e, |s.refs[k].commits|)
      && o.acts[c].phase.obs.terms == s.targets[s.rows[k].graph].terms
  {
    var s1, m;
    s1, c := Claiming(s, k, owner, ttl);
    m, o := LookingUp(s1, c, e);
    var w := Work(s.refs[k].CommitAt(e).value, e, |s.refs[k].commits|);
    ss, ts := Single(s, Claim(k, owner, ttl, Pending), s1);
    ss, ts := Extend(ss, ts, s, s1, FindWork(c, w), m);
    ss, ts := Extend(ss, ts, s, m, Observe(c), o);
  }

  /** The claim has its lease until `end`, and nothing else about the stream has changed. */
  predicate Took(s: State, s': State, k: StreamKey, c: ClaimId, end: nat)
    requires k in s.rows
  {
    && c.key == k && Leased(s', c) && !s'.acts[c].disabling && s'.rows[k].until == end
    && s'.rows[k].graph == s.rows[k].graph && s'.rows[k].projected == s.rows[k].projected
  }

  /** Up to the claim's decision. */
  lemma ReachDecision(s: State, k: StreamKey, owner: string, ttl: nat, e: int)
    returns (ss: seq<State>, ts: seq<Step>, d: State, c: ClaimId)
    requires Good(s) && Free(s, k) && s.rows[k].status == Active && Newest(s.refs[k], e) && Pends(s, k, e)
    requires s.rows[k].graph in s.targets && Spares(k, |s.refs[k].commits|, s.targets[s.rows[k].graph].terms)
    ensures Leads(ss, ts, s, d) && Good(d) && Untouched(s, d) && c in d.acts && Took(s, d, k, c, s.now + ttl)
    ensures
      var w, p := Work(s.refs[k].CommitAt(e).value, e, |s.refs[k].commits|), d.acts[c].phase;
      || p == Agreed(w.commit, e)
      || (p.Planned? && p.intent.Project? && p.intent.work == w && p.obs.terms == s.targets[s.rows[k].graph].terms)
  {
    var o;
    ss, ts, o, c := ReachObservation(s, k, owner, ttl, e);
    d := Concluding(o, c);
    ss, ts := Extend(ss, ts, s, o, Conclude(c), d);
  }

  /** From a plan to the request on the wire. */
  lemma ReachWire(s: State, c: ClaimId) returns (ss: seq<State>, ts: seq<Step>, v: State)
    requires Good(s) && c in s.acts && s.acts[c].phase.Planned? && Holds(s, c)
    requires GraphOf(s, c) in s.targets && s.targets[GraphOf(s, c)].terms == s.acts[c].phase.obs.terms
    ensures Leads(ss, ts, s, v) && Good(v) && Untouched(s, v) && v.rows == s.rows && Meets(v, c)
    ensures v.wire[c].intent == s.acts[c].phase.intent && v.acts[c] == s.acts[c].(phase := Sent)
  {
    var s1 := Authorising(s, c);
    Proceed(s, s1, Authorise(c, 0));
    v := Sending(s1, c);
    Proceed(s1, v, Send(c, ""));
    ss, ts := Single(s, Authorise(c, 0), s1);
    ss, ts := Extend(ss, ts, s, s1, Send(c, ""), v);
  }

  /** From a plan to the marker read back. */
  lemma CarryOut(s: State, c: ClaimId, size: nat)
    returns (ss: seq<State>, ts: seq<Step>, v: State)
    requires Good(s) && c in s.acts && s.acts[c].phase.Planned? && Holds(s, c)
    requires GraphOf(s, c) in s.targets && s.targets[GraphOf(s, c)].terms == s.acts[c].phase.obs.terms
    ensures Leads(ss, ts, s, v) && Good(v) && v.rows == s.rows && v.refs == s.refs
    ensures c in v.acts && v.acts[c] == s.acts[c].(phase := v.acts[c].phase) && v.acts[c].phase.Verified?
    ensures
      var i, t := s.acts[c].phase.intent, v.acts[c].phase.terms;
      i.Project? ==>
        t.body.Well? && t.body.marker.commit == i.work.commit && t.body.marker.version == i.work.version
  {
    var s2, s3;
    ss, ts, s2 := ReachWire(s, c);
    s3, v := LandingWell(s2, c, size);
    ss, ts := Extend(ss, ts, s, s2, Land(c, size), s3);
    ss, ts := Extend(ss, ts, s, s3, ReadBack(c, size), v);
  }

  /** In every reachable state, an active stream with an event beyond its progress and no running
      lease has a continuation that records its newest event, for a state of any size; unless the
      target holds another stream's marker or a version ahead of the ledger, which an operator must
      decide. */
  lemma DueWorkCanBeProjected(ss: seq<State>, ts: seq<Step>, i: nat, k: StreamKey, e: int, size: nat)
    returns (xs: seq<State>, us: seq<Step>, d: State)
    requires Run(ss, ts) && i < |ss| && Free(ss[i], k) && ss[i].rows[k].status == Active && Pends(ss[i], k, e)
    requires ss[i].rows[k].graph in ss[i].targets
    requires Spares(k, |ss[i].refs[k].commits|, ss[i].targets[ss[i].rows[k].graph].terms)
    ensures Leads(xs, us, ss[i], d) && k in d.rows && d.refs == ss[i].refs && d.rows[k].owner.None?
    ensures d.rows[k].projected.Some? && Newest(d.refs[k], d.rows[k].projected.value.1)
  {
    var s := ss[i];
    RunGrounds(ss, ts, i);
    RunBooks(ss, ts, i);
    var m := SomeNewest(s.refs[k].events, e);
    var c, p;
    xs, us, p, c := ReachDecision(s, k, "", 1, m);
    var commit := s.refs[k].CommitAt(m).value;
    var v := p;
    if p.acts[c].phase.Planned? {
      var ys, vs;
      ys, vs, v := CarryOut(p, c, size);
      JoinPaths(xs, us, ys, vs);
      xs, us := xs + ys[1..], us + vs;
    }
    d := Acknowledging(v, c, commit, m);
    xs, us := Extend(xs, us, s, v, Acknowledge(c), d);
  }

  /** In every reachable state, a stream being disabled without a running lease has a continuation
      that fences the target and disables it. */
  lemma ADisableCanBeFinished(ss: seq<State>, ts: seq<Step>, i: nat, k: StreamKey)
    returns (xs: seq<State>, us: seq<Step>, d: State)
    requires Run(ss, ts) && i < |ss| && Free(ss[i], k) && ss[i].rows[k].status == Disabling
    ensures Leads(xs, us, ss[i], d) && k in d.rows && d.rows[k].status == Disabled && d.rows[k].owner.None?
  {
    var s := ss[i];
    RunGrounds(ss, ts, i);
    RunBooks(ss, ts, i);
    var s1, c := Claiming(s, k, "", 1);
    assert RowOk(s1, k);
    var s2 := Moved(s1, c, Planned(FenceOut, Look(s1, c), |s1.log[GraphOf(s1, c)]|, 0));
    Proceed(s1, s2, ObserveToFence(c));
    xs, us := Single(s, Claim(k, "", 1, Pending), s1);
    xs, us := Extend(xs, us, s, s1, ObserveToFence(c), s2);
    var ys, vs, v := CarryOut(s2, c, 0);
    JoinPaths(xs, us, ys, vs);
    xs, us := xs + ys[1..], us + vs;
    d := Moved(v, c, Done).(rows := v.rows[k := v.rows[k].(status := Disabled, owner := None)]);
    assert NextFinishDisable(v, d, c);
    xs, us := Extend(xs, us, s, v, FinishDisable(c), d);
  }
}
