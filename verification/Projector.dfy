/** The accepted-state projector as a transition system: concurrent claims of projection
    streams, the database rows that lease them, the target that holds one marker subject per
    cognitive graph, and every request ever sent to it. A sent request may reach the target at
    any later moment, any number of times, or never; a claim may stop between any two steps.

    Only projectors write the target. `acknowledge`, `fail`, `release` and `finish_disable`
    check owner and epoch but not the expiry time; `holds` checks all three. */
module Projector {
  import opened Basics
  import opened Projection

  // ---- state ------------------------------------------------------------------------

  datatype Status = Active | Blocked | RebuildRequired | Disabling | Disabled

  /** One row of `projection_state`; `owner` and `until` are set and cleared together. */
  datatype Row = Row(graph: Graph, status: Status, projected: Option<(Commit, int)>,
                     owner: Option<string>, until: nat, epoch: nat)

  /** The `main` ref: the commit at version `v` is `commits[v - 1]`; `events` are the versions
      reached by an accepted change. Such a change writes its audit event and its outbox event in
      one transaction; a bootstrap or import move writes neither, and the ledger knows no commit
      at its version. */
  datatype Ref = Ref(commits: seq<Commit>, events: set<int>) {
    predicate Names(commit: Commit, version: int) {
      1 <= version <= |commits| && version in events && commits[version - 1] == commit
    }
    function CommitAt(version: int): Option<Commit> {
      if 1 <= version <= |commits| && version in events then Some(commits[version - 1]) else None
    }
  }

  /** A cognitive graph in the target: its marker terms, its triple count and the commit whose
      state it holds, if a projector wrote one. */
  datatype Target = Target(terms: Terms, count: nat, content: Option<Commit>)

  datatype Work = Work(commit: Commit, version: int, head: int)

  datatype Intent =
    | Project(work: Work, mode: WriteMode, rebuilt: bool)
    | FenceOut

  /** How far one claim has come. `seen` is how many terms the graph's log held when the claim
      observed it, `known` the ledger head when it looked the observed marker up. */
  datatype Phase =
    | Claimed
    | Working(work: Work)
    | Observed(work: Work, obs: Observation, seen: nat)
    | Planned(intent: Intent, obs: Observation, seen: nat, known: nat)
    | Authorised(intent: Intent, obs: Observation, seen: nat, known: nat, writeId: WriteId)
    | Sent
    | Verified(terms: Terms, size: nat)
    | Agreed(commit: Commit, version: int)
    | Done

  datatype Act = Act(owner: string, disabling: bool, mode: WorkMode, recorded: Option<int>, phase: Phase)

  datatype WorkMode = Pending | Head | Recorded

  /** A request and the observation it was planned from; the observed terms are its
      precondition. */
  datatype Request = Request(graph: Graph, obs: Observation, seen: nat, known: nat,
                             intent: Intent, writeId: WriteId, marker: Marker)

  /** `log[g]` lists every value the marker subject of `g` has had, oldest first. */
  datatype State = State(now: nat, rows: map<StreamKey, Row>, refs: map<StreamKey, Ref>,
                         targets: map<Graph, Target>, log: map<Graph, seq<Terms>>,
                         acts: map<ClaimId, Act>, wire: map<ClaimId, Request>)

  // ---- guards -----------------------------------------------------------------------

  /** The claim's lease is still recorded (whether or not it has expired). */
  predicate Live(s: State, c: ClaimId) {
    c.key in s.rows && s.rows[c.key].epoch == c.epoch && s.rows[c.key].owner.Some?
  }

  predicate Leased(s: State, c: ClaimId) {
    Live(s, c) && c in s.acts && s.rows[c.key].owner == Some(s.acts[c].owner)
  }

  predicate Holds(s: State, c: ClaimId) {
    Leased(s, c) && s.rows[c.key].until > s.now
  }

  predicate At(s: State, c: ClaimId, g: Graph) {
    c in s.acts && c.key in s.rows && s.rows[c.key].graph == g && g in s.targets && g in s.log
  }

  function GraphOf(s: State, c: ClaimId): Graph
    requires c.key in s.rows
  {
    s.rows[c.key].graph
  }

  /** No `refVersion` on the subject is `>=` the version written; a non-numeric one blocks. */
  predicate VersionRule(t: Terms, version: int) {
    match t.body
    case NoMarker => true
    case Malformed(_, v, unnumbered) => !unnumbered && (v.Some? ==> v.value < version)
    case Well(m) => m.version < version
  }

  /** Whether a request applies to the target it reaches: compare-and-swap on the exact
      observed terms, plus the version rule for a conditional write. */
  predicate Applies(t: Target, r: Request) {
    t.terms == r.obs.terms
    && (r.intent.Project? && r.intent.mode == Conditional ==> VersionRule(t.terms, r.marker.version))
  }

  /** The target after a request applied; `counted` is the target's own count of the state it
      just wrote. A fence only rotates the write id. */
  function Applied(t: Target, r: Request, counted: nat): Target {
    match r.intent
    case FenceOut => t.(terms := t.terms.(writeId := Some(r.writeId)))
    case Project(work, _, _) =>
      Target(Terms(Well(r.marker.(count := counted)), Some(r.writeId)), counted, Some(work.commit))
  }

  predicate SameProjection(observed: Marker, written: Marker) {
    observed.key == written.key && observed.commit == written.commit
    && observed.version == written.version && observed.digest == written.digest
  }

  /** A target may merge literals it canonicalises, but it never invents triples or drops them all. */
  predicate Plausible(count: nat, size: nat) {
    count <= size && (count > 0 || size == 0)
  }

  /** The event a claimed stream projects: the latest one beyond the recorded progress, the
      ref's head, or the recorded one. */
  predicate IsWork(ref: Ref, act: Act, w: Work) {
    var eligible := (e: int) =>
      && e in ref.events
      && (act.mode.Pending? && act.recorded.Some? ==> e > act.recorded.value)
      && (act.mode.Recorded? ==> act.recorded == Some(e));
    && eligible(w.version)
    && (forall e :: e in ref.events && eligible(e) ==> e <= w.version)
    && ref.Names(w.commit, w.version)
    && w.head == |ref.commits|
    && (act.mode.Head? ==> w.version == w.head)
  }

  // ---- steps ------------------------------------------------------------------------

  datatype Step =
    | Tick
    | Accept(key: StreamKey, commit: Commit, event: bool)
    | Enable(key: StreamKey, graph: Graph)
    | Disable(key: StreamKey)
    | DisableUnfenced(key: StreamKey)
    | Claim(key: StreamKey, owner: string, ttl: nat, mode: WorkMode)
    | FindWork(claim: ClaimId, work: Work)
    | Observe(claim: ClaimId)
    | ObserveToFence(claim: ClaimId)
    | Conclude(claim: ClaimId)
    | Authorise(claim: ClaimId, n: nat)
    | Send(claim: ClaimId, digest: string)
    | Land(claim: ClaimId, counted: nat)
    | ReadBack(claim: ClaimId, size: nat)
    | Acknowledge(claim: ClaimId)
    | FinishDisable(claim: ClaimId)
    | GiveUp(claim: ClaimId, status: Status)
    | Stop(claim: ClaimId)

  predicate Next(s: State, s': State, step: Step) {
    match step
    case Tick => s' == s.(now := s.now + 1)
    case Accept(k, commit, event) => NextAccept(s, s', k, commit, event)
    case Enable(k, g) => NextEnable(s, s', k, g)
    case Disable(k) => NextDisable(s, s', k)
    case DisableUnfenced(k) => NextDisableUnfenced(s, s', k)
    case Claim(k, owner, ttl, mode) => NextClaim(s, s', k, owner, ttl, mode)
    case FindWork(c, w) => NextFindWork(s, s', c, w)
    case Observe(c) => NextObserve(s, s', c)
    case ObserveToFence(c) => NextObserveToFence(s, s', c)
    case Conclude(c) => NextConclude(s, s', c)
    case Authorise(c, n) => NextAuthorise(s, s', c, n)
    case Send(c, digest) => NextSend(s, s', c, digest)
    case Land(c, counted) => NextLand(s, s', c, counted)
    case ReadBack(c, size) => NextReadBack(s, s', c, size)
    case Acknowledge(c) => NextAcknowledge(s, s', c)
    case FinishDisable(c) => NextFinishDisable(s, s', c)
    case GiveUp(c, status) => NextGiveUp(s, s', c, status)
    case Stop(c) => c in s.acts && s' == Moved(s, c, Done)
  }

  /** An accepted change has an event. Any other move is refused on an active graph, and only an
      active graph has a stream. */
  predicate NextAccept(s: State, s': State, k: StreamKey, commit: Commit, event: bool) {
    && k in s.refs && (event || k !in s.rows)
    && var ref := s.refs[k];
    && s' == s.(refs := s.refs[k := Ref(ref.commits + [commit],
                  if event then ref.events + {|ref.commits| + 1} else ref.events)])
  }

  predicate NextDisable(s: State, s': State, k: StreamKey) {
    && k in s.rows && s.rows[k].status != Disabled
    && s' == s.(rows := s.rows[k := s.rows[k].(status := Disabling)])
  }

  /** The operator's escape hatch: disabled at once, without fencing the target. */
  predicate NextDisableUnfenced(s: State, s': State, k: StreamKey) {
    && k in s.rows
    && s' == s.(rows := s.rows[k := s.rows[k].(status := Disabled, owner := None)])
  }

  predicate NextFindWork(s: State, s': State, c: ClaimId, w: Work) {
    && c in s.acts && s.acts[c].phase == Claimed && !s.acts[c].disabling
    && c.key in s.refs && IsWork(s.refs[c.key], s.acts[c], w)
    && s' == Moved(s, c, Working(w))
  }

  predicate NextObserve(s: State, s': State, c: ClaimId) {
    && c in s.acts && s.acts[c].phase.Working?
    && c.key in s.rows && At(s, c, GraphOf(s, c))
    && s' == Moved(s, c, Observed(s.acts[c].phase.work, Look(s, c), |s.log[GraphOf(s, c)]|))
  }

  predicate NextObserveToFence(s: State, s': State, c: ClaimId) {
    && c in s.acts && s.acts[c].phase == Claimed && s.acts[c].disabling
    && c.key in s.rows && At(s, c, GraphOf(s, c))
    && s' == Moved(s, c, Planned(FenceOut, Look(s, c), |s.log[GraphOf(s, c)]|, 0))
  }

  /** The lease is checked after the observation, and a write id is minted. */
  predicate NextAuthorise(s: State, s': State, c: ClaimId, n: nat) {
    && c in s.acts && s.acts[c].phase.Planned? && Holds(s, c)
    && var p := s.acts[c].phase;
    && s' == Moved(s, c, Authorised(p.intent, p.obs, p.seen, p.known, Minted(c, s.acts[c].owner, n)))
  }

  predicate NextFinishDisable(s: State, s': State, c: ClaimId) {
    && c in s.acts && s.acts[c].phase.Verified? && s.acts[c].disabling
    && Leased(s, c) && s.rows[c.key].status == Disabling
    && s' == Moved(s, c, Done).(rows := s.rows[c.key := s.rows[c.key].(status := Disabled, owner := None)])
  }

  /** `fail` and `release`: the lease goes; a disabling stream keeps its status. */
  predicate NextGiveUp(s: State, s': State, c: ClaimId, status: Status) {
    && c in s.acts && Leased(s, c) && status in {s.rows[c.key].status, Blocked, RebuildRequired}
    && var row := s.rows[c.key];
    && s' == Moved(s, c, Done).(rows := s.rows[c.key :=
               row.(owner := None, status := if row.status == Disabling then Disabling else status)])
  }

  function Moved(s: State, c: ClaimId, p: Phase): State
    requires c in s.acts
  {
    s.(acts := s.acts[c := s.acts[c].(phase := p)])
  }

  function Look(s: State, c: ClaimId): Observation
    requires c.key in s.rows && At(s, c, GraphOf(s, c))
  {
    Observation(s.targets[GraphOf(s, c)].terms, s.targets[GraphOf(s, c)].count)
  }

  /** A stream is created, or leaves `disabling`/`disabled`, only while no other stream that is
      not disabled names its cognitive graph, and only if an accepted change reached the ref's
      head; its graph never changes. */
  predicate NextEnable(s: State, s': State, k: StreamKey, g: Graph) {
    && g in s.targets && k in s.refs
    && (s.refs[k].commits != [] ==> |s.refs[k].commits| in s.refs[k].events)
    && (forall o :: o in s.rows && o != k && s.rows[o].graph == g ==> s.rows[o].status == Disabled)
    && (k in s.rows ==> s.rows[k].graph == g && s.rows[k].status in {Disabling, Disabled})
    && s' == s.(rows := s.rows[k := if k in s.rows then s.rows[k].(status := Active)
                                    else Row(g, Active, None, None, 0, 0)])
  }

  predicate NextClaim(s: State, s': State, k: StreamKey, owner: string, ttl: nat, mode: WorkMode) {
    && k in s.rows && k in s.refs
    && var row := s.rows[k];
    && (row.owner.Some? ==> row.until < s.now)
    && var backlog := exists e :: e in s.refs[k].events && (row.projected.Some? ==> e > row.projected.value.1);
    && (match mode
        case Pending => row.status == Disabling || (row.status == Active && backlog)
        case Head => row.status != Disabling && row.status != Disabled
        case Recorded => row.status == Active && row.projected.Some? && !backlog)
    && var c := ClaimId(k, row.epoch + 1);
    && s' == s.(rows := s.rows[k := row.(owner := Some(owner), until := s.now + ttl, epoch := row.epoch + 1)],
                acts := s.acts[c := Act(owner, row.status == Disabling, mode,
                                        if row.projected.Some? then Some(row.projected.value.1) else None, Claimed)])
  }

  /** What the claim does with its observation. An operator rebuild (`Head`) replaces whatever
      it saw, except a marker naming the ledger's own commit at a later version; every other
      claim follows the decision table. A recovery error ends the claim. */
  predicate NextConclude(s: State, s': State, c: ClaimId) {
    && c in s.acts && s.acts[c].phase.Observed? && c.key in s.refs
    && var act := s.acts[c];
    && var p := act.phase;
    && var ref := s.refs[c.key];
    && var r := Read(p.obs.terms);
    && var known := |ref.commits|;
    && s' == Moved(s, c,
         if act.mode.Head? then
           if r.Present? && r.marker.key == c.key && r.marker.version > p.work.version
              && ref.Names(r.marker.commit, r.marker.version) then Done
           else Planned(Project(p.work, Replace, true), p.obs, p.seen, known)
         else
           var at := if r.Present? && r.marker.key == c.key && r.marker.version <= p.work.head
                     then ref.CommitAt(r.marker.version) else None;
           match Decide(View(c.key, p.work.version, p.work.head, at, act.recorded), p.obs)
           case AlreadyProjected => Agreed(p.work.commit, p.work.version)
           case AcknowledgeBeyond(commit, version) => Agreed(commit, version)
           case WriteState(why) => Planned(Project(p.work, ModeOf(why), why.Some?), p.obs, p.seen, known)
           case RecoveryRequired(_) => Done)
  }

  predicate NextSend(s: State, s': State, c: ClaimId, digest: string) {
    && c in s.acts && s.acts[c].phase.Authorised? && c.key in s.rows
    && var p := s.acts[c].phase;
    && var marker := match p.intent
                     case Project(w, _, _) => Marker(c.key, w.commit, w.version, digest, 0)
                     case FenceOut => Marker(c.key, "", 0, "", 0);
    && s' == Moved(s, c, Sent).(wire :=
         s.wire[c := Request(GraphOf(s, c), p.obs, p.seen, p.known, p.intent, p.writeId, marker)])
  }

  /** A request reaches the target, which applies it or does nothing. */
  predicate NextLand(s: State, s': State, c: ClaimId, counted: nat) {
    && c in s.wire
    && var r := s.wire[c];
    && r.graph in s.targets && r.graph in s.log
    && var t := s.targets[r.graph];
    && s' == if !Applies(t, r) then s else
         var t' := Applied(t, r, counted);
         s.(targets := s.targets[r.graph := t'], log := s.log[r.graph := s.log[r.graph] + [t'.terms]])
  }

  /** The marker is read back: `size` is the size of the state written. A superseded or
      unverified write ends in `GiveUp` or `Stop`. */
  predicate NextReadBack(s: State, s': State, c: ClaimId, size: nat) {
    && c in s.acts && s.acts[c].phase == Sent && c in s.wire
    && c.key in s.rows && At(s, c, GraphOf(s, c))
    && var r := s.wire[c];
    && var t := s.targets[GraphOf(s, c)];
    && t.terms.writeId == Some(r.writeId)
    && (r.intent.Project? ==>
          && t.terms.body.Well? && SameProjection(t.terms.body.marker, r.marker)
          && t.count == t.terms.body.marker.count
          && Plausible(t.count, size))
    && s' == Moved(s, c, Verified(t.terms, size))
  }

  /** Progress is recorded under the lease, only for a commit the ref accepted, and never
      backwards. */
  predicate NextAcknowledge(s: State, s': State, c: ClaimId) {
    && c in s.acts && Leased(s, c) && c.key in s.refs && !s.acts[c].disabling
    && var p := s.acts[c].phase;
    && (p.Agreed? || (p.Verified? && p.terms.body.Well?))
    && var progress := if p.Agreed? then (p.commit, p.version)
                       else (p.terms.body.marker.commit, p.terms.body.marker.version);
    && var row := s.rows[c.key];
    && s.refs[c.key].Names(progress.0, progress.1)
    && (row.projected.Some? ==> row.projected.value.1 <= progress.1)
    && s' == Moved(s, c, Done).(rows := s.rows[c.key :=
         row.(projected := Some(progress), owner := None,
              status := if row.status == Disabling then Disabling else Active)])
  }

  /** Steps that no claim takes. */
  predicate Outside(step: Step) {
    step.Tick? || step.Accept? || step.Enable? || step.Disable? || step.DisableUnfenced? || step.Claim?
  }

  /** A claim's steps up to its request. */
  predicate Preparing(step: Step) {
    step.FindWork? || step.Observe? || step.ObserveToFence? || step.Conclude? || step.Authorise? || step.Send?
  }

  /** No stream yet, no event beyond a ref's head, and no target term minted by one of this
      database's claims. */
  predicate Init(s: State) {
    && (forall k, e :: k in s.refs && e in s.refs[k].events ==> 1 <= e <= |s.refs[k].commits|)
    && s.rows == map[] && s.acts == map[] && s.wire == map[]
    && s.targets.Keys == s.log.Keys
    && (forall g :: g in s.log ==>
          s.log[g] == [s.targets[g].terms]
          && !(s.targets[g].terms.writeId.Some? && s.targets[g].terms.writeId.value.Minted?))
  }

  /** A run: states and the steps between them. */
  ghost predicate Run(ss: seq<State>, ts: seq<Step>) {
    && |ss| == |ts| + 1
    && Init(ss[0])
    && (forall i :: 0 <= i < |ts| ==> Next(ss[i], ss[i + 1], ts[i]))
  }
}
