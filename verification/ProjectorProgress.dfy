/** How the projector's plans and its recorded progress relate to the ledger: a second
    invariant, on top of the one that keeps the target consistent. */
module ProjectorProgress {
  import opened Basics
  import opened Projection
  import opened Projector
  import opened ProjectorSafety
  import opened ProjectorOrigins
  import opened ProjectorTheorems

  /** The ref accepted the work item, and `known` versions at least. */
  predicate Named(s: State, k: StreamKey, w: Work) {
    k in s.refs && s.refs[k].Names(w.commit, w.version) && w.head <= |s.refs[k].commits|
  }

  predicate ShownAt(s: State, g: Graph, j: nat, k: StreamKey, commit: Commit, version: int)
    requires g in s.log && j < |s.log[g]|
  {
    var b := s.log[g][j].body;
    b.Well? && b.marker.key == k && b.marker.commit == commit && b.marker.version == version
  }

  /** The target has held a marker of stream `k` naming this commit and version. */
  predicate Shown(s: State, g: Graph, k: StreamKey, commit: Commit, version: int) {
    g in s.log && exists j: nat {:trigger ShownAt(s, g, j, k, commit, version)} ::
      j < |s.log[g]| && ShownAt(s, g, j, k, commit, version)
  }

  /** A marker of this stream, later than the work item, naming the commit the ledger has there. */
  predicate Later(ref: Ref, k: StreamKey, work: Work, t: Terms) {
    var r := Read(t);
    r.Present? && r.marker.key == k && work.version < r.marker.version && ref.Names(r.marker.commit, r.marker.version)
  }

  /** What was observed was installed by a projector of this database. */
  predicate SawInstalled(s: State, g: Graph, seen: nat) {
    g in s.log && 1 <= seen <= |s.log[g]| && !Inherited(s, g, seen - 1)
  }

  /** Neither another stream's marker nor a version beyond `known`. */
  predicate Spares(k: StreamKey, known: nat, t: Terms) {
    && (Read(t).Present? ==> Read(t).marker.key == k)
    && (MaxRefVersion(t).Some? ==> MaxRefVersion(t).value <= known)
  }

  /** What a plan may replace. A claim that consults the decision table spares other streams and
      what is ahead of the ledger. A conditional write follows nothing or an older marker of its
      stream. A later marker of the ledger's own is replaced only by an operator rebuild planned
      while the ledger was behind that marker. An installed marker of the stream is never later
      than the work item. */
  predicate Sound(s: State, c: ClaimId, g: Graph, mode: WorkMode, intent: Intent, obs: Observation, seen: nat,
                  known: nat) {
    intent.Project? ==>
      && var k := c.key;
      && var r := Read(obs.terms);
      && Named(s, k, intent.work) && known <= |s.refs[k].commits| && Fair(s, k, intent, obs.terms)
      && (!mode.Head? ==> Spares(k, known, obs.terms))
      && (Later(s.refs[k], k, intent.work, obs.terms) ==> mode.Head? && known < r.marker.version)
      && (SawInstalled(s, g, seen) && obs.terms.body.Well? && obs.terms.body.marker.key == k ==>
            obs.terms.body.marker.version <= intent.work.version)
  }

  /** An installed marker was observed over the count it states. */
  predicate SawCounted(s: State, g: Graph, obs: Observation, seen: nat) {
    SawInstalled(s, g, seen) ==> NamedBody(s, obs.terms.body) && obs.terms.body.marker.count == obs.count
  }

  /** A pending claim's work item is the latest event beyond what the claim found recorded; a
      reconciling claim's is what it found recorded. */
  predicate Latest(ref: Ref, act: Act, w: Work) {
    match act.mode
    case Head => true
    case Recorded => act.recorded == Some(w.version)
    case Pending =>
      && (act.recorded.Some? ==> act.recorded.value < w.version)
      && forall e :: e in ref.events && e <= w.head && (act.recorded.Some? ==> act.recorded.value < e) ==>
        e <= w.version
  }

  predicate VersionAt(s: State, g: Graph, j: nat, k: StreamKey, version: int)
    requires g in s.log && j < |s.log[g]|
  {
    var b := s.log[g][j].body;
    b.Well? && b.marker.key == k && b.marker.version == version
  }

  /** One of the first `n` entries is a marker of stream `k` at this version. */
  predicate ShownBefore(s: State, g: Graph, n: nat, k: StreamKey, version: int) {
    g in s.log && n <= |s.log[g]| && exists j: nat {:trigger VersionAt(s, g, j, k, version)} ::
      j < n && VersionAt(s, g, j, k, version)
  }

  predicate RecordedBefore(s: State, c: ClaimId, n: nat)
    requires c in s.acts && c.key in s.rows
  {
    s.acts[c].recorded.Some? ==> ShownBefore(s, GraphOf(s, c), n, c.key, s.acts[c].recorded.value)
  }

  predicate WorkOk(s: State, c: ClaimId, w: Work)
    requires c in s.acts
  {
    Named(s, c.key, w) && Latest(s.refs[c.key], s.acts[c], w)
  }

  predicate ActGrounded(s: State, c: ClaimId)
    requires c in s.acts
  {
    c.key in s.rows && GraphOf(s, c) in s.log
    && var g := GraphOf(s, c);
    match s.acts[c].phase
    case Claimed => RecordedBefore(s, c, |s.log[g]|)
    case Working(w) => WorkOk(s, c, w) && RecordedBefore(s, c, |s.log[g]|)
    case Observed(w, obs, seen) => WorkOk(s, c, w) && RecordedBefore(s, c, seen) && SawCounted(s, g, obs, seen)
    case Planned(intent, obs, seen, known) => Sound(s, c, g, s.acts[c].mode, intent, obs, seen, known)
    case Authorised(intent, obs, seen, known, _) => Sound(s, c, g, s.acts[c].mode, intent, obs, seen, known)
    case Agreed(commit, version) => Shown(s, g, c.key, commit, version)
    case _ => true
  }

  predicate RequestGrounded(s: State, c: ClaimId)
    requires c in s.wire
  {
    var r := s.wire[c];
    c in s.acts && Sound(s, c, r.graph, s.acts[c].mode, r.intent, r.obs, r.seen, r.known)
  }

  predicate RowGrounded(s: State, k: StreamKey)
    requires k in s.rows
  {
    s.rows[k].projected.Some? ==>
      Shown(s, s.rows[k].graph, k, s.rows[k].projected.value.0, s.rows[k].projected.value.1)
  }

  predicate Grounded(s: State) {
    && Origins(s)
    && (forall c {:trigger ActGrounded(s, c)} :: c in s.acts ==> ActGrounded(s, c))
    && (forall c {:trigger RequestGrounded(s, c)} :: c in s.wire ==> RequestGrounded(s, c))
    && (forall k {:trigger RowGrounded(s, k)} :: k in s.rows ==> RowGrounded(s, k))
  }

  // ---- preservation ---------------------------------------------------------------------

  /** A stream keeps its graph, a claim its mode and what it found recorded. */
  predicate ClaimsGrow(s: State, s': State) {
    && (forall k :: k in s.rows ==> k in s'.rows && s'.rows[k].graph == s.rows[k].graph)
    && (forall c :: c in s.acts ==> c in s'.acts && SameTask(s.acts[c], s'.acts[c]))
  }

  predicate SameTask(a: Act, b: Act) { b.mode == a.mode && b.recorded == a.recorded }

  predicate Grows(s: State, s': State) {
    Remembers(s, s') && ClaimsGrow(s, s')
  }

  lemma PreparingKeepsRows(s: State, s': State, step: Step)
    requires Next(s, s', step) && (Preparing(step) || step.Land? || step.ReadBack? || step.Stop?)
    ensures s'.rows == s.rows
  {
  }

  lemma NextRowsGrow(s: State, s': State, step: Step)
    requires Next(s, s', step)
    ensures forall k :: k in s.rows ==> k in s'.rows && s'.rows[k].graph == s.rows[k].graph
  {
    if Preparing(step) || step.Land? || step.ReadBack? || step.Stop? { PreparingKeepsRows(s, s', step); }
  }

  lemma ModeStays(s: State, s': State, step: Step, c: ClaimId)
    requires Next(s, s', step) && !step.Claim? && c in s.acts
    ensures c in s'.acts && SameTask(s.acts[c], s'.acts[c])
  {
  }

  lemma NextClaimsGrow(s: State, s': State, step: Step)
    requires Next(s, s', step) && !step.Claim?
    ensures forall c :: c in s.acts ==> c in s'.acts && SameTask(s.acts[c], s'.acts[c])
  {
    forall c | c in s.acts ensures c in s'.acts && SameTask(s.acts[c], s'.acts[c]) { ModeStays(s, s', step, c); }
  }

  lemma ClaimGrows(s: State, s': State, k: StreamKey, owner: string, ttl: nat, mode: WorkMode)
    requires Inv(s) && NextClaim(s, s', k, owner, ttl, mode)
    ensures ClaimsGrow(s, s')
  {
    var c := ClaimId(k, s.rows[k].epoch + 1);
    forall d | d in s.acts ensures d != c { assert ActOk(s, d); }
  }

  lemma NextGrows(s: State, s': State, step: Step)
    requires Inv(s) && Next(s, s', step)
    ensures Grows(s, s')
  {
    NextRemembers(s, s', step);
    NextRowsGrow(s, s', step);
    if step.Claim? {
      ClaimGrows(s, s', step.key, step.owner, step.ttl, step.mode);
    } else {
      NextClaimsGrow(s, s', step);
    }
  }

  lemma GrowthKeepsShown(s: State, s': State, g: Graph, k: StreamKey, commit: Commit, version: int)
    requires Grows(s, s') && Shown(s, g, k, commit, version)
    ensures Shown(s', g, k, commit, version)
  {
    var j: nat :| j < |s.log[g]| && ShownAt(s, g, j, k, commit, version);
    assert ShownAt(s', g, j, k, commit, version);
  }

  lemma GrowthKeepsRecorded(s: State, s': State, c: ClaimId, n: nat, n': nat)
    requires Grows(s, s') && c in s.acts && c.key in s.rows && GraphOf(s, c) in s.log && RecordedBefore(s, c, n)
    requires n <= n' <= |s'.log[GraphOf(s, c)]|
    ensures RecordedBefore(s', c, n')
  {
    if s.acts[c].recorded.Some? {
      var g, v := GraphOf(s, c), s.acts[c].recorded.value;
      var j: nat :| j < n && VersionAt(s, g, j, c.key, v);
      assert VersionAt(s', g, j, c.key, v);
    }
  }

  lemma GrowthKeepsWork(s: State, s': State, c: ClaimId, w: Work)
    requires Grows(s, s') && c in s.acts && WorkOk(s, c, w)
    ensures WorkOk(s', c, w)
  {
  }

  lemma SawInstalledStays(s: State, s': State, g: Graph, t: Terms, seen: nat)
    requires Inv(s) && Grows(s, s') && SawAt(s, g, t, seen)
    ensures SawInstalled(s', g, seen) <==> SawInstalled(s, g, seen)
  {
    InheritedStays(s, s', g, seen - 1);
  }

  lemma GrowthKeepsSound(s: State, s': State, c: ClaimId, g: Graph, mode: WorkMode, intent: Intent, obs: Observation,
                         seen: nat, known: nat)
    requires Inv(s) && Grows(s, s') && SawAt(s, g, obs.terms, seen) && Sound(s, c, g, mode, intent, obs, seen, known)
    ensures Sound(s', c, g, mode, intent, obs, seen, known)
  {
    SawInstalledStays(s, s', g, obs.terms, seen);
  }

  lemma GrowthKeepsAct(s: State, s': State, c: ClaimId)
    requires Inv(s) && Grows(s, s') && c in s.acts && ActGrounded(s, c) && s'.acts[c].phase == s.acts[c].phase
    ensures ActGrounded(s', c)
  {
    var g, mode := GraphOf(s, c), s.acts[c].mode;
    assert ActOk(s, c);
    match s.acts[c].phase {
      case Claimed => GrowthKeepsRecorded(s, s', c, |s.log[g]|, |s'.log[g]|);
      case Working(w) =>
        GrowthKeepsWork(s, s', c, w);
        GrowthKeepsRecorded(s, s', c, |s.log[g]|, |s'.log[g]|);
      case Observed(w, obs, seen) =>
        GrowthKeepsWork(s, s', c, w);
        GrowthKeepsRecorded(s, s', c, seen, seen);
        SawInstalledStays(s, s', g, obs.terms, seen);
      case Planned(intent, obs, seen, known) => GrowthKeepsSound(s, s', c, g, mode, intent, obs, seen, known);
      case Authorised(intent, obs, seen, known, _) => GrowthKeepsSound(s, s', c, g, mode, intent, obs, seen, known);
      case Agreed(commit, version) => GrowthKeepsShown(s, s', g, c.key, commit, version);
      case _ =>
    }
  }

  lemma GrowthKeepsRow(s: State, s': State, k: StreamKey)
    requires Grows(s, s') && k in s.rows && RowGrounded(s, k) && s'.rows[k].projected == s.rows[k].projected
    ensures RowGrounded(s', k)
  {
    if s.rows[k].projected.Some? {
      GrowthKeepsShown(s, s', s.rows[k].graph, k, s.rows[k].projected.value.0, s.rows[k].projected.value.1);
    }
  }

  /** What is observed is the last entry of the log, over the graph's own count. */
  lemma ObserveGrounds(s: State, s': State, c: ClaimId)
    requires Inv(s) && Grounded(s) && NextObserve(s, s', c)
    ensures ActGrounded(s', c)
  {
    assert ActGrounded(s, c) && ActOk(s, c);
    var g := GraphOf(s, c);
    assert TipOk(s, g) && CountOk(s, g) && OriginOk(s, g, |s.log[g]| - 1);
    InheritedStays(s, s', g, |s.log[g]| - 1);
    GrowthKeepsRecorded(s, s', c, |s.log[g]|, |s.log[g]|);
  }

  /** An operator rebuild stops at a later marker the ledger knows. */
  lemma ForcedPlanIsSound(s: State, s': State, c: ClaimId)
    requires Inv(s) && Grounded(s) && NextConclude(s, s', c) && s.acts[c].mode.Head?
    ensures ActGrounded(s', c)
  {
    assert ActGrounded(s, c) && ActOk(s, c);
    var p := s.acts[c].phase;
    SawInstalledStays(s, s', GraphOf(s, c), p.obs.terms, p.seen);
    SeenIsMinted(s, c, p.obs.terms, p.seen);
  }

  /** An installed marker carries a write id. */
  lemma SeenIsMinted(s: State, c: ClaimId, t: Terms, seen: nat)
    requires Inv(s) && c.key in s.rows && SawAt(s, GraphOf(s, c), t, seen)
    ensures SawInstalled(s, GraphOf(s, c), seen) ==> t.writeId.Some?
  {
    assert EntryOk(s, GraphOf(s, c), seen - 1);
  }

  /** The view a claim gives the decision table. */
  function ViewOf(s: State, c: ClaimId): View
    requires c in s.acts && s.acts[c].phase.Observed? && c.key in s.refs
  {
    var act := s.acts[c];
    var w, r := act.phase.work, Read(act.phase.obs.terms);
    var at := if r.Present? && r.marker.key == c.key && r.marker.version <= w.head
              then s.refs[c.key].CommitAt(r.marker.version) else None;
    View(c.key, w.version, w.head, at, act.recorded)
  }

  /** An inherited marker is the only one the graph has shown, so what a reconciling claim found
      recorded is that marker's version. */
  lemma InheritedIsRecorded(s: State, c: ClaimId)
    requires Inv(s) && Grounded(s) && c in s.acts && s.acts[c].phase.Observed? && s.acts[c].recorded.Some?
    requires c.key in s.rows && SawAt(s, GraphOf(s, c), s.acts[c].phase.obs.terms, s.acts[c].phase.seen)
    requires !SawInstalled(s, GraphOf(s, c), s.acts[c].phase.seen)
    ensures
      var b := s.acts[c].phase.obs.terms.body;
      b.Well? && b.marker.version == s.acts[c].recorded.value
  {
    assert ActGrounded(s, c);
    var g, p, v := GraphOf(s, c), s.acts[c].phase, s.acts[c].recorded.value;
    var j: nat :| j < p.seen && VersionAt(s, g, j, c.key, v);
    InheritedBelow(s, g, j, p.seen - 1);
    assert OriginOk(s, g, j) && OriginOk(s, g, p.seen - 1);
  }

  /** The row of the table in which a later genuine marker is replaced is never reached: a later
      marker of the ledger's own has an event the claim would have found, unless it landed since;
      and then the graph's count matches it. */
  lemma TableDoesNotRegress(s: State, c: ClaimId)
    requires Inv(s) && Grounded(s) && c in s.acts && s.acts[c].phase.Observed? && c.key in s.refs
      && !s.acts[c].mode.Head?
    ensures !Regresses(ViewOf(s, c), s.acts[c].phase.obs)
  {
    assert ActGrounded(s, c) && ActOk(s, c);
    var p := s.acts[c].phase;
    RegressesExactlyOnEditedNewerGraph(ViewOf(s, c), p.obs);
    if s.acts[c].mode.Recorded? && !SawInstalled(s, GraphOf(s, c), p.seen) { InheritedIsRecorded(s, c); }
  }

  /** What the table may have written over. */
  lemma WriteSpares(view: View, obs: Observation)
    requires Decide(view, obs).WriteState?
    ensures Read(obs.terms).Present? ==> Read(obs.terms).marker.key == view.key
    ensures MaxRefVersion(obs.terms).Some? ==> MaxRefVersion(obs.terms).value <= view.headVersion
    ensures Decide(view, obs) == WriteState(None) ==>
      || Read(obs.terms).Absent?
      || (Genuine(view, obs.terms) && Read(obs.terms).marker.version < view.targetVersion)
  {
    LeavesOthersAndAheadAlone(view, obs);
    if Decide(view, obs) == WriteState(None) { ConditionalWriteFollowsAPredecessor(view, obs); }
  }

  /** A plan by the decision table never replaces a later marker of the ledger's own, and a
      conditional one follows its predecessor. */
  lemma TablePlanIsSound(s: State, s': State, c: ClaimId)
    requires Inv(s) && Grounded(s) && NextConclude(s, s', c) && !s.acts[c].mode.Head? && s'.acts[c].phase.Planned?
    ensures ActGrounded(s', c)
  {
    assert ActGrounded(s, c) && ActOk(s, c);
    var p := s.acts[c].phase;
    TableDoesNotRegress(s, c);
    WriteSpares(ViewOf(s, c), p.obs);
    SawInstalledStays(s, s', GraphOf(s, c), p.obs.terms, p.seen);
    SeenIsMinted(s, c, p.obs.terms, p.seen);
  }

  /** An observation that agrees with the work item was of a marker the target has shown. */
  lemma AgreementWasShown(s: State, s': State, c: ClaimId)
    requires Inv(s) && Grounded(s) && NextConclude(s, s', c) && s'.acts[c].phase.Agreed?
    ensures ActGrounded(s', c)
  {
    assert ActGrounded(s, c) && ActOk(s, c);
    var p := s.acts[c].phase;
    AcknowledgesExactlyGenuineState(ViewOf(s, c), p.obs);
    assert ShownAt(s', GraphOf(s, c), p.seen - 1, c.key, s'.acts[c].phase.commit, s'.acts[c].phase.version);
  }

  lemma ConcludeGrounds(s: State, s': State, c: ClaimId)
    requires Inv(s) && Grounded(s) && NextConclude(s, s', c)
    ensures ActGrounded(s', c)
  {
    assert ActGrounded(s, c);
    if s.acts[c].mode.Head? {
      ForcedPlanIsSound(s, s', c);
    } else if s'.acts[c].phase.Planned? {
      TablePlanIsSound(s, s', c);
    } else if s'.acts[c].phase.Agreed? {
      AgreementWasShown(s, s', c);
    }
  }

  lemma AcknowledgeGrounds(s: State, s': State, c: ClaimId)
    requires Inv(s) && Grounded(s) && NextAcknowledge(s, s', c)
    ensures RowGrounded(s', c.key)
  {
    assert ActGrounded(s, c) && ActOk(s, c);
    var g := GraphOf(s, c);
    var progress := s'.rows[c.key].projected.value;
    if s.acts[c].phase.Verified? {
      assert RequestOk(s, c) && TipOk(s, g);
      assert ShownAt(s', g, |s.log[g]| - 1, c.key, progress.0, progress.1);
    } else {
      var j: nat :| j < |s.log[g]| && ShownAt(s, g, j, c.key, progress.0, progress.1);
      assert ShownAt(s', g, j, c.key, progress.0, progress.1);
    }
  }

  /** A phase that carries nothing to justify. */
  predicate Resting(p: Phase) {
    p.Sent? || p.Verified? || p.Done? || (p.Planned? && p.intent.FenceOut?)
  }

  /** The steps after which a claim carries something new. */
  predicate Telling(step: Step) {
    step.FindWork? || step.Observe? || step.Conclude? || step.Authorise?
  }

  lemma PreparingRests(s: State, s': State, step: Step, c: ClaimId)
    requires Next(s, s', step) && Preparing(step) && !Telling(step)
    requires c in s'.acts && (c in s.acts ==> s'.acts[c].phase != s.acts[c].phase)
    ensures c in s.acts && Resting(s'.acts[c].phase)
  {
  }

  lemma OutsideMovesNone(s: State, s': State, step: Step)
    requires Next(s, s', step) && Outside(step) && !step.Claim?
    ensures s'.acts == s.acts
  {
  }

  lemma FinishingRests(s: State, s': State, step: Step, c: ClaimId)
    requires Next(s, s', step) && !Preparing(step) && !Outside(step)
    requires c in s'.acts && (c in s.acts ==> s'.acts[c].phase != s.acts[c].phase)
    ensures c in s.acts && Resting(s'.acts[c].phase)
  {
  }

  lemma RestIsGrounded(s: State, s': State, c: ClaimId)
    requires Grows(s, s') && c in s.acts && ActGrounded(s, c) && Resting(s'.acts[c].phase)
    ensures ActGrounded(s', c)
  {
  }

  /** A claim finds recorded what the target has shown. */
  lemma ClaimGrounds(s: State, s': State, k: StreamKey, owner: string, ttl: nat, mode: WorkMode)
    requires Inv(s) && Grounded(s) && NextClaim(s, s', k, owner, ttl, mode)
    ensures ActGrounded(s', ClaimId(k, s.rows[k].epoch + 1))
  {
    var c := ClaimId(k, s.rows[k].epoch + 1);
    var g, row := s.rows[k].graph, s.rows[k];
    assert RowOk(s, k) && RowGrounded(s, k);
    if row.projected.Some? {
      var commit, v := row.projected.value.0, row.projected.value.1;
      var j: nat :| j < |s.log[g]| && ShownAt(s, g, j, k, commit, v);
      assert VersionAt(s', g, j, k, v);
    }
  }

  lemma FindWorkGrounds(s: State, s': State, c: ClaimId, w: Work)
    requires Inv(s) && Grounded(s) && NextFindWork(s, s', c, w)
    ensures ActGrounded(s', c)
  {
    assert ActGrounded(s, c) && ActOk(s, c);
    var n := |s.log[GraphOf(s, c)]|;
    NextGrows(s, s', FindWork(c, w));
    GrowthKeepsRecorded(s, s', c, n, n);
  }

  lemma AuthoriseGrounds(s: State, s': State, c: ClaimId, n: nat)
    requires Inv(s) && Grounded(s) && NextAuthorise(s, s', c, n)
    ensures ActGrounded(s', c)
  {
    assert ActGrounded(s, c) && ActOk(s, c);
    var p := s.acts[c].phase;
    NextGrows(s, s', Authorise(c, n));
    GrowthKeepsSound(s, s', c, GraphOf(s, c), s.acts[c].mode, p.intent, p.obs, p.seen, p.known);
  }

  lemma OnlyMovesItself(s: State, s': State, step: Step, d: ClaimId)
    requires Next(s, s', step) && Telling(step) && d in s'.acts && (d in s.acts ==> s'.acts[d].phase != s.acts[d].phase)
    ensures d == step.claim
  {
  }

  lemma TellingIsGrounded(s: State, s': State, step: Step, c: ClaimId)
    requires Inv(s) && Grounded(s) && Next(s, s', step) && Telling(step) && step.claim == c
    ensures c in s'.acts && ActGrounded(s', c)
  {
    match step {
      case FindWork(_, w) => FindWorkGrounds(s, s', c, w);
      case Observe(_) => ObserveGrounds(s, s', c);
      case Authorise(_, n) => AuthoriseGrounds(s, s', c, n);
      case Conclude(_) => ConcludeGrounds(s, s', c);
    }
  }

  lemma PlainMoverIsGrounded(s: State, s': State, step: Step, c: ClaimId)
    requires Grounded(s) && Next(s, s', step) && Grows(s, s') && c in s'.acts && !Telling(step) && !step.Claim?
    requires c in s.acts ==> s'.acts[c].phase != s.acts[c].phase
    ensures ActGrounded(s', c)
  {
    if Preparing(step) {
      PreparingRests(s, s', step, c);
    } else if Outside(step) {
      OutsideMovesNone(s, s', step);
    } else {
      FinishingRests(s, s', step, c);
    }
    assert ActGrounded(s, c);
    RestIsGrounded(s, s', c);
  }

  lemma MoverIsGrounded(s: State, s': State, step: Step, c: ClaimId)
    requires Inv(s) && Grounded(s) && Next(s, s', step) && Grows(s, s') && c in s'.acts
    requires c in s.acts ==> s'.acts[c].phase != s.acts[c].phase
    ensures ActGrounded(s', c)
  {
    if Telling(step) {
      OnlyMovesItself(s, s', step, c);
      TellingIsGrounded(s, s', step, c);
    } else if step.Claim? {
      ClaimGrounds(s, s', step.key, step.owner, step.ttl, step.mode);
    } else {
      PlainMoverIsGrounded(s, s', step, c);
    }
  }

  lemma NextOrigins(s: State, s': State, step: Step)
    requires Inv(s) && Grounded(s) && Next(s, s', step) && Remembers(s, s')
    ensures Origins(s')
  {
    if step.Land? {
      assert RequestGrounded(s, step.claim);
      LandOrigins(s, s', step.claim, step.counted);
    } else {
      OnlyLandTouches(s, s', step);
      UntouchedOrigins(s, s');
    }
  }

  lemma NextGrounds(s: State, s': State, step: Step)
    requires Inv(s) && Grounded(s) && Next(s, s', step)
    ensures Grounded(s')
  {
    NextGrows(s, s', step);
    NextOrigins(s, s', step);
    forall c | c in s'.acts ensures ActGrounded(s', c) {
      if c in s.acts && s'.acts[c].phase == s.acts[c].phase {
        assert ActGrounded(s, c);
        GrowthKeepsAct(s, s', c);
      } else {
        MoverIsGrounded(s, s', step, c);
      }
    }
    forall c | c in s'.wire ensures RequestGrounded(s', c) {
      OnlySendAddsRequests(s, s', step, c);
      if step.Send? && step.claim == c {
        SendGrounds(s, s', c, step.digest);
      } else {
        GrowthKeepsRequest(s, s', c);
      }
    }
    forall k | k in s'.rows ensures RowGrounded(s', k) { RowStaysGrounded(s, s', step, k); }
  }

  lemma OnlySendAddsRequests(s: State, s': State, step: Step, c: ClaimId)
    requires Next(s, s', step) && c in s'.wire
    ensures (c in s.wire && s'.wire[c] == s.wire[c]) || (step.Send? && step.claim == c)
  {
  }

  lemma SendGrounds(s: State, s': State, c: ClaimId, digest: string)
    requires Inv(s) && Grounded(s) && NextSend(s, s', c, digest)
    ensures RequestGrounded(s', c)
  {
    assert ActGrounded(s, c) && ActOk(s, c);
    var p := s.acts[c].phase;
    NextGrows(s, s', Send(c, digest));
    GrowthKeepsSound(s, s', c, GraphOf(s, c), s.acts[c].mode, p.intent, p.obs, p.seen, p.known);
  }

  lemma GrowthKeepsRequest(s: State, s': State, c: ClaimId)
    requires Inv(s) && Grounded(s) && Grows(s, s') && c in s.wire && c in s'.wire && s'.wire[c] == s.wire[c]
    ensures RequestGrounded(s', c)
  {
    assert RequestGrounded(s, c) && RequestOk(s, c);
    var r := s.wire[c];
    GrowthKeepsSound(s, s', c, r.graph, s.acts[c].mode, r.intent, r.obs, r.seen, r.known);
  }

  lemma RowStaysGrounded(s: State, s': State, step: Step, k: StreamKey)
    requires Inv(s) && Grounded(s) && Next(s, s', step) && Grows(s, s') && k in s'.rows
    ensures RowGrounded(s', k)
  {
    if k in s.rows && s'.rows[k].projected == s.rows[k].projected {
      assert RowGrounded(s, k);
      GrowthKeepsRow(s, s', k);
    } else {
      OnlyAcknowledgeRecords(s, s', step, k);
      if step.Acknowledge? { AcknowledgeGrounds(s, s', step.claim); }
    }
  }

  /** A row's progress changes by an acknowledgement of its claim; a new row has none. */
  lemma OnlyAcknowledgeRecords(s: State, s': State, step: Step, k: StreamKey)
    requires Next(s, s', step) && k in s'.rows && (k in s.rows ==> s'.rows[k].projected != s.rows[k].projected)
    ensures (step.Acknowledge? && step.claim.key == k) || s'.rows[k].projected.None?
  {
    if Preparing(step) || step.Land? || step.ReadBack? || step.Stop? { PreparingKeepsRows(s, s', step); }
  }

  lemma {:induction false} RunGrounds(ss: seq<State>, ts: seq<Step>, i: nat)
    requires Run(ss, ts) && i < |ss|
    ensures Inv(ss[i]) && Grounded(ss[i])
  {
    RunHolds(ss, ts, i);
    if i == 0 {
      InitOrigins(ss[0]);
    } else {
      RunGrounds(ss, ts, i - 1);
      NextGrounds(ss[i - 1], ss[i], ts[i - 1]);
    }
  }

  // ---- theorems ---------------------------------------------------------------------------

  /** Recorded progress was read from the target first, whatever claim crashed where; and ever
      after, unless a rebuild landed since, the target's marker is this stream's at that version
      or later. */
  lemma RecordedProgressIsKept(ss: seq<State>, ts: seq<Step>, i: nat, k: StreamKey) returns (j: nat)
    requires Run(ss, ts) && i < |ss| && k in ss[i].rows && ss[i].rows[k].projected.Some?
    ensures
      var s, row := ss[i], ss[i].rows[k];
      && row.graph in s.log && row.graph in s.targets && j < |s.log[row.graph]|
      && ShownAt(s, row.graph, j, k, row.projected.value.0, row.projected.value.1)
      && (Rebuilt(s, row.graph, j) || AtOrBeyond(s.targets[row.graph].terms.body, k, row.projected.value.1))
  {
    RunGrounds(ss, ts, i);
    var s, row := ss[i], ss[i].rows[k];
    assert RowGrounded(s, k);
    j :| j < |s.log[row.graph]| && ShownAt(s, row.graph, j, k, row.projected.value.0, row.projected.value.1);
    assert KeptFrom(s, row.graph, j) && TipOk(s, row.graph);
  }

  /** No write that takes effect puts an older version over a marker of its stream that a projector
      of this database installed: not a conditional one, not a rebuild, forced or automatic,
      however stale its work item is and whatever landed between its claim and its write. */
  lemma InstalledMarkerIsNeverRegressed(ss: seq<State>, ts: seq<Step>, i: nat, c: ClaimId, counted: nat)
    requires Run(ss, ts) && i < |ts| && ts[i] == Land(c, counted) && ss[i + 1] != ss[i]
    requires c in ss[i].wire && ss[i].wire[c].intent.Project?
    ensures
      var s, r := ss[i], ss[i].wire[c];
      && r.graph in s.log && r.graph in s.targets && |s.log[r.graph]| >= 1
      && var b := s.targets[r.graph].terms.body;
      && (!Inherited(s, r.graph, |s.log[r.graph]| - 1) ==>
            b.Well? && (b.marker.key == c.key ==> b.marker.version <= r.intent.work.version))
  {
    RunGrounds(ss, ts, i);
    var s, r := ss[i], ss[i].wire[c];
    assert Next(s, ss[i + 1], ts[i]);
    ApplyingIsFresh(s, c, counted);
    assert RequestGrounded(s, c) && TipOk(s, r.graph) && OriginOk(s, r.graph, |s.log[r.graph]| - 1);
  }

  /** A write that takes effect replaces a later marker naming the ledger's own commit only if no
      projector of this database installed that marker, and then only as an operator rebuild
      planned while the ledger had not reached the marker's version. No automatic write ever does. */
  lemma LandedRegression(ss: seq<State>, ts: seq<Step>, i: nat, c: ClaimId, counted: nat)
    requires Run(ss, ts) && i < |ts| && ts[i] == Land(c, counted) && ss[i + 1] != ss[i]
    requires c in ss[i].wire && ss[i].wire[c].intent.Project?
    ensures
      var s, r := ss[i], ss[i].wire[c];
      && c.key in s.refs && r.graph in s.targets && c in s.acts && r.graph in s.log && |s.log[r.graph]| >= 1
      && var t := s.targets[r.graph];
      && (Later(s.refs[c.key], c.key, r.intent.work, t.terms) ==>
            && Inherited(s, r.graph, |s.log[r.graph]| - 1) && s.acts[c].mode.Head?
            && r.known < Read(t.terms).marker.version)
  {
    RunGrounds(ss, ts, i);
    assert Next(ss[i], ss[i + 1], ts[i]);
    assert RequestGrounded(ss[i], c);
    InstalledMarkerIsNeverRegressed(ss, ts, i, c, counted);
  }

  /** No write of a claim other than an operator rebuild ever takes effect over another stream's
      marker, or over a version the ledger had not reached when the write was planned. A
      conditional one raises the version. */
  lemma AutomaticWriteSparesOthers(ss: seq<State>, ts: seq<Step>, i: nat, c: ClaimId, counted: nat)
    requires Run(ss, ts) && i < |ts| && ts[i] == Land(c, counted) && ss[i + 1] != ss[i]
    requires c in ss[i].wire && ss[i].wire[c].intent.Project? && c in ss[i].acts && !ss[i].acts[c].mode.Head?
    ensures
      var s, r := ss[i], ss[i].wire[c];
      && r.graph in s.targets && c.key in s.refs && r.known <= |s.refs[c.key].commits|
      && var t := s.targets[r.graph].terms;
      && Spares(c.key, r.known, t)
      && (r.intent.mode == Conditional && MaxRefVersion(t).Some? ==> MaxRefVersion(t).value < r.intent.work.version)
  {
    RunGrounds(ss, ts, i);
    assert Next(ss[i], ss[i + 1], ts[i]);
    assert RequestGrounded(ss[i], c) && RequestOk(ss[i], c);
  }

  /** In no run does an automatic claim reach the row of the decision table that replaces a later
      genuine marker. */
  lemma TableNeverRegresses(ss: seq<State>, ts: seq<Step>, i: nat, c: ClaimId)
    requires Run(ss, ts) && i < |ts| && ts[i] == Conclude(c) && c in ss[i].acts && !ss[i].acts[c].mode.Head?
    ensures ss[i].acts[c].phase.Observed? && c.key in ss[i].refs
    ensures !Regresses(ViewOf(ss[i], c), ss[i].acts[c].phase.obs)
  {
    RunGrounds(ss, ts, i);
    assert Next(ss[i], ss[i + 1], ts[i]);
    TableDoesNotRegress(ss[i], c);
  }

  // ---- disabling without a fence ------------------------------------------------------------

  /** The claim passed its lease check against the current marker value and has not yet
      reached the target. */
  predicate Poised(s: State, c: ClaimId)
    requires c.key in s.rows
  {
    && GraphOf(s, c) in s.targets
    && var t := s.targets[GraphOf(s, c)].terms;
    || (c in s.wire && s.wire[c].obs.terms == t)
    || (c in s.acts && s.acts[c].phase.Authorised? && s.acts[c].phase.obs.terms == t)
  }

  lemma Sending(s: State, c: ClaimId) returns (s': State)
    requires Inv(s) && Grounded(s) && c in s.acts && c.key in s.rows && s.acts[c].phase.Authorised?
    ensures Next(s, s', Send(c, "")) && Inv(s') && Grounded(s') && s' == Moved(s, c, Sent).(wire := s'.wire)
    ensures c in s'.wire && s'.wire[c].graph == GraphOf(s, c) && s'.wire[c].obs == s.acts[c].phase.obs
    ensures s'.wire[c].intent == s.acts[c].phase.intent
  {
    var p := s.acts[c].phase;
    var marker := match p.intent
                  case Project(w, _, _) => Marker(c.key, w.commit, w.version, "", 0)
                  case FenceOut => Marker(c.key, "", 0, "", 0);
    s' := Moved(s, c, Sent).(wire :=
      s.wire[c := Request(GraphOf(s, c), p.obs, p.seen, p.known, p.intent, p.writeId, marker)]);
    assert NextSend(s, s', c, "");
    NextKeeps(s, s', Send(c, ""));
    NextGrounds(s, s', Send(c, ""));
  }

  /** A poised claim can still reach the target: a continuation in which its request lands. */
  lemma PoisedCanLand(s: State, c: ClaimId) returns (ss: seq<State>, ts: seq<Step>)
    requires Inv(s) && Grounded(s) && c.key in s.rows && Poised(s, c)
    ensures Path(ss, ts) && ss[0] == s
    ensures |ts| >= 1 && ts[|ts| - 1] == Land(c, 0) && ss[|ts|] != ss[|ts| - 1]
  {
    if c in s.wire && s.wire[c].obs.terms == s.targets[GraphOf(s, c)].terms {
      assert RequestOk(s, c);
      var s1 := Landing(s, c, 0);
      ss, ts := [s, s1], [Land(c, 0)];
    } else {
      var s1 := Sending(s, c);
      var s2 := Landing(s1, c, 0);
      ss, ts := [s, s1, s2], [Send(c, ""), Land(c, 0)];
    }
  }

  lemma Landing(s: State, c: ClaimId, counted: nat) returns (s': State)
    requires Inv(s) && Grounded(s) && c in s.wire && s.wire[c].graph in s.targets
    requires s.wire[c].obs.terms == s.targets[s.wire[c].graph].terms
    ensures Next(s, s', Land(c, counted)) && s' != s
    ensures s' == s.(targets := s'.targets, log := s'.log) && s.wire[c].graph in s'.targets
    ensures s'.targets[s.wire[c].graph] == Applied(s.targets[s.wire[c].graph], s.wire[c], counted)
  {
    var r := s.wire[c];
    assert RequestOk(s, c) && RequestGrounded(s, c);
    assert Applies(s.targets[r.graph], r);
    var t' := Applied(s.targets[r.graph], r, counted);
    s' := s.(targets := s.targets[r.graph := t'], log := s.log[r.graph := s.log[r.graph] + [t'.terms]]);
    assert |s'.log[r.graph]| == |s.log[r.graph]| + 1;
  }

  /** Disabling a stream without a fence shuts its earlier claims out exactly when none of them
      is poised: otherwise some continuation lands one of their writes on a disabled stream. */
  lemma UnfencedDisableIsFinalExactlyWhenNonePoised(ss: seq<State>, ts: seq<Step>, i: nat, k: StreamKey)
    requires Run(ss, ts) && i < |ts| && ts[i] == DisableUnfenced(k)
    ensures k in ss[i + 1].rows
    ensures NeverLands(ss[i + 1], k, ss[i + 1].rows[k].epoch) <==>
            !exists c: ClaimId :: c.key == k && Poised(ss[i + 1], c)
  {
    var s := ss[i + 1];
    assert Next(ss[i], s, ts[i]);
    RunGrounds(ss, ts, i + 1);
    var e := s.rows[k].epoch;
    if c: ClaimId :| c.key == k && Poised(s, c) {
      if c in s.wire { assert RequestOk(s, c); }
      assert ActOk(s, c);
      var ss', ts' := PoisedCanLand(s, c);
      assert Path(ss', ts') && ts'[|ts'| - 1].Land? && Upto(c, k, e);
    } else {
      forall c: ClaimId | Upto(c, k, e) ensures EntitledToDead(s, c) {
        assert !Poised(s, c);
        if c in s.wire { assert RequestOk(s, c) && TipOk(s, GraphOf(s, c)); }
        if c in s.acts && s.acts[c].phase.Authorised? { assert ActOk(s, c) && TipOk(s, GraphOf(s, c)); }
      }
      FencedOffNeverLands(s, k, e);
    }
  }
}
