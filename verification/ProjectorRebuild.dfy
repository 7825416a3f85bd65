/** When an operator rebuild can put an older version over a later marker of the ledger's own:
    exactly when the marker it observed was ahead of the ledger at the moment it was planned. */
module ProjectorRebuild {
  import opened Projection
  import opened Projector
  import opened ProjectorSafety
  import opened ProjectorTheorems
  import opened ProjectorProgress

  /** The claim's request, if it lands now, meets a later marker that names the ledger's commit. */
  predicate MeetsLater(s: State, c: ClaimId) {
    && c in s.wire && c.key in s.refs && s.wire[c].intent.Project? && s.wire[c].graph in s.targets
    && Later(s.refs[c.key], c.key, s.wire[c].intent.work, s.targets[s.wire[c].graph].terms)
  }

  /** A continuation that ends in the claim's write taking effect over such a marker. */
  ghost predicate EndsInRegression(ss: seq<State>, ts: seq<Step>, s: State, c: ClaimId) {
    && Path(ss, ts) && ss[0] == s && |ts| >= 1 && ts[|ts| - 1].Land? && ts[|ts| - 1].claim == c
    && MeetsLater(ss[|ts| - 1], c) && ss[|ts|] != ss[|ts| - 1]
  }

  ghost predicate CanRegress(s: State, c: ClaimId) {
    exists ss: seq<State>, ts: seq<Step> :: EndsInRegression(ss, ts, s, c)
  }

  // ---- a plan is carried to the target unchanged --------------------------------------------

  predicate SamePlan(s: State, c: ClaimId, p: Phase)
    requires c in s.acts && p.Planned?
  {
    && (c in s.wire ==> s.wire[c].intent == p.intent && s.wire[c].obs == p.obs && s.wire[c].known == p.known)
    && match s.acts[c].phase
       case Planned(intent, obs, _, known) => intent == p.intent && obs == p.obs && known == p.known
       case Authorised(intent, obs, _, known, _) => intent == p.intent && obs == p.obs && known == p.known
       case Claimed => false
       case Working(_) => false
       case Observed(_, _, _) => false
       case _ => true
  }

  predicate Carries(s: State, c: ClaimId, p: Phase) {
    c in s.acts && p.Planned? && s.acts[c].mode.Head? && SamePlan(s, c, p)
  }

  lemma PreparingCarries(s: State, s': State, step: Step, c: ClaimId, p: Phase)
    requires Next(s, s', step) && Preparing(step) && Carries(s, c, p)
    ensures Carries(s', c, p)
  {
  }

  lemma OutsideCarries(s: State, s': State, step: Step, c: ClaimId, p: Phase)
    requires Inv(s) && Next(s, s', step) && Outside(step) && Carries(s, c, p)
    ensures Carries(s', c, p)
  {
    assert ActOk(s, c);
  }

  lemma FinishingCarries(s: State, s': State, step: Step, c: ClaimId, p: Phase)
    requires Next(s, s', step) && !Preparing(step) && !Outside(step) && Carries(s, c, p)
    ensures Carries(s', c, p)
  {
  }

  lemma {:induction false} PathCarries(ss: seq<State>, ts: seq<Step>, c: ClaimId, p: Phase, i: nat)
    requires Path(ss, ts) && Inv(ss[0]) && Grounded(ss[0]) && Carries(ss[0], c, p) && i < |ss|
    ensures Inv(ss[i]) && Grounded(ss[i]) && Carries(ss[i], c, p)
  {
    if i > 0 {
      PathCarries(ss, ts, c, p, i - 1);
      var s, s', step := ss[i - 1], ss[i], ts[i - 1];
      NextKeeps(s, s', step);
      NextGrounds(s, s', step);
      if Preparing(step) {
        PreparingCarries(s, s', step, c, p);
      } else if Outside(step) {
        OutsideCarries(s, s', step, c, p);
      } else {
        FinishingCarries(s, s', step, c, p);
      }
    }
  }

  lemma RegressionWasAhead(ss: seq<State>, ts: seq<Step>, s: State, c: ClaimId, p: Phase)
    requires Inv(s) && Grounded(s) && Carries(s, c, p) && EndsInRegression(ss, ts, s, c)
    ensures
      var r := Read(p.obs.terms);
      r.Present? && r.marker.key == c.key && p.known < r.marker.version
  {
    var n := |ts| - 1;
    PathCarries(ss, ts, c, p, n);
    assert Next(ss[n], ss[n + 1], ts[n]);
    assert RequestGrounded(ss[n], c);
  }

  // ---- and a marker that is ahead can be met -------------------------------------------------

  lemma Prepended(s: State, step: Step, ss: seq<State>, ts: seq<Step>)
    requires Path(ss, ts) && Next(s, ss[0], step)
    ensures Path([s] + ss, [step] + ts) && ([s] + ss)[|ts| + 1] == ss[|ts|]
  {
    var xs, us := [s] + ss, [step] + ts;
    forall i | 0 <= i < |us| ensures Next(xs[i], xs[i + 1], us[i]) {
      if i > 0 { assert Next(ss[i - 1], ss[i], ts[i - 1]); }
    }
  }

  /** The ledger accepts commits until it has `commit` at `version`. */
  lemma {:induction false} CatchUp(s: State, k: StreamKey, commit: Commit, version: int)
    returns (ss: seq<State>, ts: seq<Step>)
    requires k in s.refs && |s.refs[k].commits| < version
    ensures Path(ss, ts) && ss[0] == s
    ensures
      var e := ss[|ts|];
      && k in e.refs && e == s.(refs := s.refs[k := e.refs[k]]) && e.refs[k].Names(commit, version)
    decreases version - |s.refs[k].commits|
  {
    var ref := s.refs[k];
    if |ref.commits| + 1 == version {
      var s' := s.(refs := s.refs[k := Ref(ref.commits + [commit], ref.events + {|ref.commits| + 1})]);
      ss, ts := [s, s'], [Accept(k, commit, true)];
    } else {
      var s' := s.(refs := s.refs[k := Ref(ref.commits + [""], ref.events + {|ref.commits| + 1})]);
      var more, steps := CatchUp(s', k, commit, version);
      ss, ts := [s] + more, [Accept(k, "", true)] + steps;
      Prepended(s, Accept(k, "", true), more, steps);
    }
  }

  lemma Authorising(s: State, c: ClaimId) returns (s': State)
    requires Inv(s) && Grounded(s) && c in s.acts && s.acts[c].phase.Planned? && Holds(s, c)
    ensures Next(s, s', Authorise(c, 0)) && Inv(s') && Grounded(s')
    ensures
      var p := s.acts[c].phase;
      s' == Moved(s, c, Authorised(p.intent, p.obs, p.seen, p.known, Minted(c, s.acts[c].owner, 0)))
  {
    var p := s.acts[c].phase;
    s' := Moved(s, c, Authorised(p.intent, p.obs, p.seen, p.known, Minted(c, s.acts[c].owner, 0)));
    NextKeeps(s, s', Authorise(c, 0));
    NextGrounds(s, s', Authorise(c, 0));
  }

  /** A planned claim that holds its lease over the marker it observed can land its write. */
  lemma PlannedCanLand(s: State, c: ClaimId) returns (ss: seq<State>, ts: seq<Step>)
    requires Inv(s) && Grounded(s) && c in s.acts && s.acts[c].phase.Planned? && Holds(s, c)
    requires GraphOf(s, c) in s.targets && s.targets[GraphOf(s, c)].terms == s.acts[c].phase.obs.terms
    ensures Path(ss, ts) && ss[0] == s && |ts| == 3 && ts[2] == Land(c, 0) && ss[3] != ss[2]
    ensures c in ss[2].wire && ss[2].wire[c].graph == GraphOf(s, c) && ss[2].wire[c].intent == s.acts[c].phase.intent
    ensures ss[2].targets == s.targets && ss[2].refs == s.refs
  {
    var s1 := Authorising(s, c);
    var s2 := Sending(s1, c);
    var s3 := Landing(s2, c, 0);
    ss, ts := [s, s1, s2, s3], [Authorise(c, 0), Send(c, ""), Land(c, 0)];
  }

  lemma JoinPaths(xs: seq<State>, us: seq<Step>, ys: seq<State>, vs: seq<Step>)
    requires Path(xs, us) && Path(ys, vs) && xs[|us|] == ys[0]
    ensures Path(xs + ys[1..], us + vs) && forall i :: 0 <= i < |ys| ==> (xs + ys[1..])[|us| + i] == ys[i]
  {
    var zs, ws := xs + ys[1..], us + vs;
    assert forall i :: 0 <= i < |ys| ==> zs[|us| + i] == ys[i];
    forall i | 0 <= i < |ws| ensures Next(zs[i], zs[i + 1], ws[i]) {
      if i >= |us| { assert Next(ys[i - |us|], ys[i - |us| + 1], vs[i - |us|]); }
    }
  }

  /** An operator rebuild has just been planned, under its lease, over the marker now there. */
  predicate ForcedPlan(s: State, c: ClaimId) {
    && c in s.acts && s.acts[c].mode.Head? && s.acts[c].phase.Planned? && s.acts[c].phase.intent.Project? && Holds(s, c)
    && GraphOf(s, c) in s.targets && s.targets[GraphOf(s, c)].terms == s.acts[c].phase.obs.terms
    && c.key in s.refs && s.acts[c].phase.known == |s.refs[c.key].commits|
  }

  lemma AheadCanBeMet(s: State, c: ClaimId)
    requires Inv(s) && Grounded(s) && ForcedPlan(s, c)
    requires
      var r := Read(s.acts[c].phase.obs.terms);
      r.Present? && r.marker.key == c.key && |s.refs[c.key].commits| < r.marker.version
    ensures CanRegress(s, c)
  {
    var p := s.acts[c].phase;
    var m := Read(p.obs.terms).marker;
    assert ActGrounded(s, c);
    var xs, us := CatchUp(s, c.key, m.commit, m.version);
    assert Carries(s, c, p) by { assert ActOk(s, c); }
    PathCarries(xs, us, c, p, |us|);
    var e := xs[|us|];
    var ys, vs := PlannedCanLand(e, c);
    JoinPaths(xs, us, ys, vs);
    assert MeetsLater(ys[2], c);
    assert EndsInRegression(xs + ys[1..], us + vs, s, c);
  }

  /** An operator rebuild that has just been planned can come to replace a later marker naming the
      ledger's own commit if and only if the marker it observed is its stream's and its version
      exceeds the ledger's head. */
  lemma ForcedRebuildCanRegressExactlyWhenBehindTheMarker(ss: seq<State>, ts: seq<Step>, i: nat, c: ClaimId)
    requires Run(ss, ts) && i < |ts| && ts[i] == Conclude(c) && ForcedPlan(ss[i + 1], c)
    ensures
      var s := ss[i + 1];
      var r := Read(s.acts[c].phase.obs.terms);
      CanRegress(s, c) <==> r.Present? && r.marker.key == c.key && |s.refs[c.key].commits| < r.marker.version
  {
    var s := ss[i + 1];
    RunGrounds(ss, ts, i + 1);
    var p := s.acts[c].phase;
    assert ActOk(s, c) && Carries(s, c, p);
    if CanRegress(s, c) {
      var ss', ts' :| EndsInRegression(ss', ts', s, c);
      RegressionWasAhead(ss', ts', s, c, p);
    }
    var r := Read(p.obs.terms);
    if r.Present? && r.marker.key == c.key && |s.refs[c.key].commits| < r.marker.version {
      AheadCanBeMet(s, c);
    }
  }
}
