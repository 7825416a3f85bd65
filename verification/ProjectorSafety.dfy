/** Safety of the projector over every run: what the log of marker values looks like, what an
    acknowledgement proves about the target, and what a completed disable rules out. */
module ProjectorSafety {
  import opened Basics
  import opened Projection
  import opened Projector

  // ---- the invariant ------------------------------------------------------------------

  predicate IsMinted(t: Terms) {
    t.writeId.Some? && t.writeId.value.Minted?
  }

  predicate MintedBy(t: Terms, c: ClaimId) {
    IsMinted(t) && t.writeId.value.claim == c
  }

  /** Whoever is authorised to replace `t` is not its writer, and its writer's lease is over. */
  predicate Authority(s: State, b: ClaimId, t: Terms) {
    IsMinted(t) ==> t.writeId.value.claim != b && !Live(s, t.writeId.value.claim)
  }

  predicate SawAt(s: State, g: Graph, t: Terms, seen: nat) {
    g in s.log && 1 <= seen <= |s.log[g]| && s.log[g][seen - 1] == t
  }

  predicate RowOk(s: State, k: StreamKey)
    requires k in s.rows
  {
    s.rows[k].graph in s.log && (s.rows[k].owner.Some? ==> s.rows[k].status != Disabled)
  }

  /** Two streams of one cognitive graph: at least one is disabled. */
  predicate Apart(s: State, k: StreamKey, l: StreamKey)
    requires k in s.rows && l in s.rows
  {
    k != l && s.rows[k].graph == s.rows[l].graph ==>
      s.rows[k].status == Disabled || s.rows[l].status == Disabled
  }

  predicate RowsOk(s: State) {
    && (forall k {:trigger RowOk(s, k)} :: k in s.rows ==> RowOk(s, k))
    && (forall k, l {:trigger Apart(s, k, l)} :: k in s.rows && l in s.rows ==> Apart(s, k, l))
  }

  /** Entry `j` was installed by the request of the claim that minted it, over entry `j - 1`. */
  predicate EntryOk(s: State, g: Graph, j: nat)
    requires g in s.log && j < |s.log[g]|
  {
    var t := s.log[g][j];
    if j == 0 then !IsMinted(t) else
      && IsMinted(t)
      && var c := t.writeId.value.claim;
      && c in s.wire && s.wire[c].graph == g && s.wire[c].obs.terms == s.log[g][j - 1]
      && t.writeId == Some(s.wire[c].writeId)
  }

  /** The last entry is current; if a projecting request installed it, the graph holds the
      state of the commit it names and the marker counts that state. */
  predicate TipOk(s: State, g: Graph)
    requires g in s.log && g in s.targets
  {
    var t := s.targets[g];
    && |s.log[g]| >= 1 && s.log[g][|s.log[g]| - 1] == t.terms
    && (IsMinted(t.terms) && t.terms.writeId.value.claim in s.wire ==>
          var r := s.wire[t.terms.writeId.value.claim];
          r.intent.Project? ==>
            t.content == Some(r.intent.work.commit) && t.terms.body == Well(r.marker.(count := t.count)))
  }

  predicate LogOk(s: State) {
    && s.targets.Keys == s.log.Keys
    && (forall g {:trigger TipOk(s, g)} :: g in s.log ==> TipOk(s, g))
    && (forall g, j: nat {:trigger EntryOk(s, g, j)} :: g in s.log && j < |s.log[g]| ==> EntryOk(s, g, j))
  }

  predicate Distinct(log: seq<Terms>) {
    forall i, j :: 0 <= i < j < |log| ==> log[i] != log[j]
  }

  /** No marker value ever comes back. */
  predicate NoRepeat(s: State) {
    forall g {:trigger Distinct(s.log[g])} :: g in s.log ==> Distinct(s.log[g])
  }

  predicate PhaseOk(s: State, c: ClaimId, p: Phase)
    requires c.key in s.rows
  {
    match p
    case Claimed => c !in s.wire
    case Working(_) => c !in s.wire
    case Observed(_, obs, seen) => c !in s.wire && SawAt(s, GraphOf(s, c), obs.terms, seen)
    case Planned(_, obs, seen, _) => c !in s.wire && SawAt(s, GraphOf(s, c), obs.terms, seen)
    case Authorised(_, obs, seen, _, w) =>
      && c !in s.wire && SawAt(s, GraphOf(s, c), obs.terms, seen)
      && Authority(s, c, obs.terms) && w.Minted? && w.claim == c
    case Sent => true
    case Verified(t, size) =>
      && c in s.wire && t.writeId == Some(s.wire[c].writeId) && MintedBy(t, c) && GraphOf(s, c) in s.targets
      && (s.wire[c].intent.Project? ==> t.body.Well? && Plausible(t.body.marker.count, size))
      && (Live(s, c) ==> s.targets[GraphOf(s, c)].terms == t)
    case Agreed(_, _) => c !in s.wire
    case Done => true
  }

  predicate ActOk(s: State, c: ClaimId)
    requires c in s.acts
  {
    && c.key in s.rows && c.epoch <= s.rows[c.key].epoch && PhaseOk(s, c, s.acts[c].phase)
    && IntentOk(s.acts[c])
  }

  /** A claim of a disabling stream fences; every other claim projects. */
  predicate IntentOk(a: Act) {
    && (a.phase.Working? || a.phase.Observed? ==> !a.disabling)
    && (a.phase.Planned? || a.phase.Authorised? ==> (a.disabling <==> a.phase.intent.FenceOut?))
  }

  predicate ActsOk(s: State) {
    forall c {:trigger ActOk(s, c)} :: c in s.acts ==> ActOk(s, c)
  }

  predicate RequestOk(s: State, c: ClaimId)
    requires c in s.wire
  {
    var r := s.wire[c];
    && c in s.acts && c.key in s.rows && r.graph == GraphOf(s, c)
    && r.writeId.Minted? && r.writeId.claim == c
    && SawAt(s, r.graph, r.obs.terms, r.seen) && Authority(s, c, r.obs.terms)
    && (s.acts[c].disabling <==> r.intent.FenceOut?)
    && (r.intent.Project? ==>
          r.marker == Marker(c.key, r.intent.work.commit, r.intent.work.version, r.marker.digest, 0))
  }

  predicate WireOk(s: State) {
    forall c {:trigger RequestOk(s, c)} :: c in s.wire ==> RequestOk(s, c)
  }

  predicate Inv(s: State) {
    RowsOk(s) && LogOk(s) && NoRepeat(s) && ActsOk(s) && WireOk(s)
  }

  // ---- preservation -------------------------------------------------------------------

  /** Database moves: the target side is untouched, no earlier claim regains its lease. */
  predicate Quiet(s: State, s': State) {
    && s'.targets == s.targets && s'.log == s.log && s'.wire == s.wire
    && (forall k :: k in s.rows ==>
          k in s'.rows && s'.rows[k].graph == s.rows[k].graph && s.rows[k].epoch <= s'.rows[k].epoch)
    && (forall c {:trigger Live(s', c)} :: c in s.acts && Live(s', c) ==> Live(s, c))
    && RowsOk(s')
  }

  lemma QuietKeepsAuthority(s: State, s': State, b: ClaimId, g: Graph, t: Terms, seen: nat)
    requires Inv(s) && Quiet(s, s') && SawAt(s, g, t, seen) && Authority(s, b, t)
    ensures SawAt(s', g, t, seen) && Authority(s', b, t)
  {
    assert EntryOk(s, g, seen - 1);
    if IsMinted(t) { assert RequestOk(s, t.writeId.value.claim); }
  }

  lemma QuietKeepsPhase(s: State, s': State, c: ClaimId)
    requires Inv(s) && Quiet(s, s') && c in s.acts
    ensures c.key in s'.rows && c.epoch <= s'.rows[c.key].epoch && PhaseOk(s', c, s.acts[c].phase)
  {
    assert ActOk(s, c);
    match s.acts[c].phase {
      case Authorised(_, obs, seen, _, _) => QuietKeepsAuthority(s, s', c, GraphOf(s, c), obs.terms, seen);
      case _ =>
    }
  }

  predicate ActsCarryOver(s: State, s': State) {
    && (forall c :: c in s.acts ==> c in s'.acts && s'.acts[c].disabling == s.acts[c].disabling)
    && (forall c {:trigger s'.acts[c]} :: c in s'.acts ==>
          ActOk(s', c) || (c in s.acts && s'.acts[c].phase == s.acts[c].phase))
  }

  lemma QuietKeeps(s: State, s': State)
    requires Inv(s) && Quiet(s, s') && ActsCarryOver(s, s')
    ensures Inv(s')
  {
    forall c | c in s'.acts ensures ActOk(s', c) {
      if !ActOk(s', c) { QuietKeepsPhase(s, s', c); assert ActOk(s, c); }
    }
    forall c | c in s'.wire ensures RequestOk(s', c) {
      assert RequestOk(s, c);
      QuietKeepsAuthority(s, s', c, s.wire[c].graph, s.wire[c].obs.terms, s.wire[c].seen);
      assert ActOk(s, c);
    }
    forall g, j: nat | g in s'.log && j < |s'.log[g]| ensures EntryOk(s', g, j) {
      assert EntryOk(s, g, j);
    }
    forall g | g in s'.log ensures TipOk(s', g) { assert TipOk(s, g); }
  }

  /** Holding the lease after an observation authorises replacing what was observed. */
  lemma HoldingAuthorises(s: State, c: ClaimId, t: Terms, seen: nat)
    requires Inv(s) && c in s.acts && c !in s.wire && Live(s, c)
    requires SawAt(s, GraphOf(s, c), t, seen)
    ensures Authority(s, c, t)
  {
    if IsMinted(t) {
      assert EntryOk(s, GraphOf(s, c), seen - 1);
      var d := t.writeId.value.claim;
      assert RequestOk(s, d) && RowOk(s, c.key) && RowOk(s, d.key) && Apart(s, c.key, d.key);
    }
  }

  lemma RowsStand(s: State, s': State)
    requires RowsOk(s) && s'.rows == s.rows && s'.log.Keys == s.log.Keys
    ensures RowsOk(s')
  {
    forall k | k in s'.rows ensures RowOk(s', k) { assert RowOk(s, k); }
    forall k, l | k in s'.rows && l in s'.rows ensures Apart(s', k, l) { assert Apart(s, k, l); }
  }

  /** Adding a request of a claim that had none leaves the log as it was. */
  lemma SendKeepsLog(s: State, s': State, c: ClaimId, digest: string)
    requires Inv(s) && NextSend(s, s', c, digest) && c !in s.wire
    ensures LogOk(s') && NoRepeat(s')
  {
    forall g, j: nat | g in s'.log && j < |s'.log[g]| ensures EntryOk(s', g, j) {
      assert EntryOk(s, g, j);
    }
    forall g | g in s'.log ensures TipOk(s', g) {
      assert TipOk(s, g) && EntryOk(s, g, |s.log[g]| - 1);
    }
  }

  lemma SendKeeps(s: State, s': State, c: ClaimId, digest: string)
    requires Inv(s) && NextSend(s, s', c, digest)
    ensures Inv(s')
  {
    assert ActOk(s, c);
    forall d | d in s'.acts ensures ActOk(s', d) { assert ActOk(s, d); }
    forall d | d in s'.wire ensures RequestOk(s', d) {
      if d != c { assert RequestOk(s, d); }
    }
    SendKeepsLog(s, s', c, digest);
    RowsStand(s, s');
  }

  /** A request that applies was planned from the current marker value, so nothing landed
      since its observation, and what it installs was never there before. */
  lemma ApplyingIsFresh(s: State, c: ClaimId, counted: nat)
    requires Inv(s) && c in s.wire && s.wire[c].graph in s.targets
    requires Applies(s.targets[s.wire[c].graph], s.wire[c])
    ensures var r := s.wire[c];
            && r.seen == |s.log[r.graph]|
            && (forall j :: 0 <= j < |s.log[r.graph]| ==>
                  s.log[r.graph][j].writeId != Some(r.writeId)
                  && s.log[r.graph][j] != Applied(s.targets[r.graph], r, counted).terms)
  {
    var r := s.wire[c];
    assert RequestOk(s, c) && TipOk(s, r.graph);
    var log := s.log[r.graph];
    assert Distinct(log);
    forall j | 0 <= j < |log| ensures log[j].writeId != Some(r.writeId) {
      assert EntryOk(s, r.graph, j);
    }
  }

  /** A verified claim that still has its lease is not overwritten. */
  lemma LandKeepsPhase(s: State, s': State, c: ClaimId, counted: nat, d: ClaimId)
    requires Inv(s) && NextLand(s, s', c, counted) && d in s.acts
    requires Applies(s.targets[s.wire[c].graph], s.wire[c])
    ensures ActOk(s', d)
  {
    assert RequestOk(s, c) && ActOk(s, d);
    match s.acts[d].phase {
      case Verified(t, _) =>
        assert GraphOf(s, d) == s.wire[c].graph ==> t != s.wire[c].obs.terms || !Live(s, d);
      case _ =>
    }
  }

  lemma LandKeepsLog(s: State, s': State, c: ClaimId, counted: nat)
    requires Inv(s) && NextLand(s, s', c, counted)
    requires Applies(s.targets[s.wire[c].graph], s.wire[c])
    ensures LogOk(s') && NoRepeat(s')
  {
    assert RequestOk(s, c);
    ApplyingIsFresh(s, c, counted);
    forall g, j: nat | g in s'.log && j < |s'.log[g]| ensures EntryOk(s', g, j) {
      if j < |s.log[g]| { assert EntryOk(s, g, j); } else { assert TipOk(s, g); }
    }
    forall g | g in s'.log ensures TipOk(s', g) && Distinct(s'.log[g]) {
      assert TipOk(s, g) && Distinct(s.log[g]);
    }
  }

  lemma LandKeeps(s: State, s': State, c: ClaimId, counted: nat)
    requires Inv(s) && NextLand(s, s', c, counted)
    ensures Inv(s')
  {
    if Applies(s.targets[s.wire[c].graph], s.wire[c]) {
      forall d | d in s'.acts ensures ActOk(s', d) { LandKeepsPhase(s, s', c, counted, d); }
      forall d | d in s'.wire ensures RequestOk(s', d) { assert RequestOk(s, d); }
      LandKeepsLog(s, s', c, counted);
      RowsStand(s, s');
    }
  }

  lemma MoveKeeps(s: State, s': State, c: ClaimId)
    requires Inv(s) && c in s.acts && c in s'.acts && s' == Moved(s, c, s'.acts[c].phase)
    requires c.key in s.rows && PhaseOk(s, c, s'.acts[c].phase) && IntentOk(s'.acts[c])
    ensures Inv(s')
  {
    assert ActOk(s, c);
    assert forall d :: Live(s', d) == Live(s, d);
    RowsStand(s, s');
    assert ActOk(s', c);
    QuietKeeps(s, s');
  }

  /** A step that changes one row, keeps its graph, never lowers its epoch and never turns a
      lease back on. */
  lemma RowKeeps(s: State, s': State, k: StreamKey, c: ClaimId)
    requires Inv(s) && k in s.rows && k in s'.rows
    requires s'.targets == s.targets && s'.log == s.log && s'.wire == s.wire
    requires s'.rows == s.rows[k := s'.rows[k]]
    requires s'.rows[k].graph == s.rows[k].graph && s'.rows[k].epoch == s.rows[k].epoch
    requires s'.rows[k].owner.Some? ==> s.rows[k].owner.Some? && s'.rows[k].status != Disabled
    requires s'.rows[k].status != Disabled ==> s.rows[k].status != Disabled
    requires s'.acts == s.acts || (c in s.acts && s'.acts == s.acts[c := s.acts[c].(phase := Done)])
    ensures Inv(s')
  {
    forall l | l in s'.rows ensures RowOk(s', l) { assert RowOk(s, l); }
    forall i, j | i in s'.rows && j in s'.rows ensures Apart(s', i, j) { assert Apart(s, i, j); }
    if c in s.acts { assert ActOk(s, c); }
    QuietKeeps(s, s');
  }

  lemma EnableKeeps(s: State, s': State, k: StreamKey, g: Graph)
    requires Inv(s) && NextEnable(s, s', k, g)
    ensures Inv(s')
  {
    forall l | l in s'.rows ensures RowOk(s', l) { if l in s.rows { assert RowOk(s, l); } }
    forall i, j | i in s'.rows && j in s'.rows ensures Apart(s', i, j) {
      if i in s.rows && j in s.rows { assert Apart(s, i, j); }
    }
    forall c | c in s.acts ensures c.key in s.rows { assert ActOk(s, c); }
    QuietKeeps(s, s');
  }

  lemma ClaimKeeps(s: State, s': State, k: StreamKey, owner: string, ttl: nat, mode: WorkMode)
    requires Inv(s) && NextClaim(s, s', k, owner, ttl, mode)
    ensures Inv(s')
  {
    var c := ClaimId(k, s.rows[k].epoch + 1);
    forall d | d in s.acts ensures d.key in s.rows && d.epoch <= s.rows[d.key].epoch { assert ActOk(s, d); }
    forall d | d in s.wire ensures d in s.acts { assert RequestOk(s, d); }
    forall l | l in s'.rows ensures RowOk(s', l) { assert RowOk(s, l); }
    forall i, j | i in s'.rows && j in s'.rows ensures Apart(s', i, j) { assert Apart(s, i, j); }
    assert ActOk(s', c);
    QuietKeeps(s, s');
  }

  lemma PlainMoveKeeps(s: State, s': State, c: ClaimId, w: Work)
    requires Inv(s) && (NextFindWork(s, s', c, w) || (c in s.acts && s' == Moved(s, c, Done)))
    ensures Inv(s')
  {
    assert ActOk(s, c);
    MoveKeeps(s, s', c);
  }

  lemma ObserveKeeps(s: State, s': State, c: ClaimId)
    requires Inv(s) && (NextObserve(s, s', c) || NextObserveToFence(s, s', c))
    ensures Inv(s')
  {
    assert ActOk(s, c) && TipOk(s, GraphOf(s, c));
    MoveKeeps(s, s', c);
  }

  lemma ConcludeKeeps(s: State, s': State, c: ClaimId)
    requires Inv(s) && NextConclude(s, s', c)
    ensures Inv(s')
  {
    assert ActOk(s, c);
    MoveKeeps(s, s', c);
  }

  lemma AuthoriseKeeps(s: State, s': State, c: ClaimId, n: nat)
    requires Inv(s) && NextAuthorise(s, s', c, n)
    ensures Inv(s')
  {
    assert ActOk(s, c);
    HoldingAuthorises(s, c, s.acts[c].phase.obs.terms, s.acts[c].phase.seen);
    MoveKeeps(s, s', c);
  }

  lemma ReadBackKeeps(s: State, s': State, c: ClaimId, size: nat)
    requires Inv(s) && NextReadBack(s, s', c, size)
    ensures Inv(s')
  {
    assert RequestOk(s, c);
    MoveKeeps(s, s', c);
  }

  lemma RowStepKeeps(s: State, s': State, step: Step)
    requires Inv(s) && Next(s, s', step)
    requires step.Disable? || step.DisableUnfenced? || step.Acknowledge? || step.FinishDisable? || step.GiveUp?
    ensures Inv(s')
  {
    var c := if step.Disable? || step.DisableUnfenced? then ClaimId(step.key, 0) else step.claim;
    assert RowOk(s, c.key);
    RowKeeps(s, s', c.key, c);
  }

  lemma DatabaseStepKeeps(s: State, s': State, step: Step)
    requires Inv(s) && Next(s, s', step)
    requires Outside(step)
    ensures Inv(s')
  {
    match step {
      case Tick => MereTimeKeeps(s, s');
      case Accept(_, _, _) => MereTimeKeeps(s, s');
      case Enable(k, g) => EnableKeeps(s, s', k, g);
      case Claim(k, owner, ttl, mode) => ClaimKeeps(s, s', k, owner, ttl, mode);
      case _ => RowStepKeeps(s, s', step);
    }
  }

  lemma PreparingKeeps(s: State, s': State, step: Step)
    requires Inv(s) && Next(s, s', step) && Preparing(step)
    ensures Inv(s')
  {
    match step {
      case FindWork(c, w) => PlainMoveKeeps(s, s', c, w);
      case Observe(c) => ObserveKeeps(s, s', c);
      case ObserveToFence(c) => ObserveKeeps(s, s', c);
      case Conclude(c) => ConcludeKeeps(s, s', c);
      case Authorise(c, n) => AuthoriseKeeps(s, s', c, n);
      case Send(c, digest) => SendKeeps(s, s', c, digest);
    }
  }

  /** Every step of the protocol keeps the invariant. */
  lemma NextKeeps(s: State, s': State, step: Step)
    requires Inv(s) && Next(s, s', step)
    ensures Inv(s')
  {
    if Preparing(step) {
      PreparingKeeps(s, s', step);
    } else if Outside(step) {
      DatabaseStepKeeps(s, s', step);
    } else {
      FinishingKeeps(s, s', step);
    }
  }

  lemma FinishingKeeps(s: State, s': State, step: Step)
    requires Inv(s) && Next(s, s', step) && !Preparing(step) && !Outside(step)
    ensures Inv(s')
  {
    match step {
      case Land(c, counted) => LandKeeps(s, s', c, counted);
      case ReadBack(c, size) => ReadBackKeeps(s, s', c, size);
      case Acknowledge(_) => RowStepKeeps(s, s', step);
      case FinishDisable(_) => RowStepKeeps(s, s', step);
      case GiveUp(_, _) => RowStepKeeps(s, s', step);
      case Stop(c) => PlainMoveKeeps(s, s', c, Work("", 0, 0));
    }
  }

  lemma MereTimeKeeps(s: State, s': State)
    requires Inv(s) && s' == s.(now := s'.now, refs := s'.refs)
    ensures Inv(s')
  {
    RowsStand(s, s');
    QuietKeeps(s, s');
  }
}
