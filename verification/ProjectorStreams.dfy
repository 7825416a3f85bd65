/** The life of a stream and of its leases: who changes a status, what a disable shuts out from the
    moment it is asked for, and for how long a claim may act. */
module ProjectorStreams {
  import opened Basics
  import opened Projection
  import opened Projector
  import opened ProjectorSafety
  import opened ProjectorOrigins
  import opened ProjectorTheorems
  import opened ProjectorProgress

  // ---- status -------------------------------------------------------------------------------

  predicate Enables(step: Step, k: StreamKey) { step.Enable? && step.key == k }

  /** The operator's unfenced disable, or the end of a claim's fence. */
  predicate TurnsOff(step: Step, k: StreamKey) {
    step == DisableUnfenced(k) || (step.FinishDisable? && step.claim.key == k)
  }

  /** Which step moves a stream from one status to another. */
  predicate StatusMove(from: Status, to: Status, step: Step, k: StreamKey) {
    match from
    case Disabled => to == Active && Enables(step, k)
    case Disabling => (to == Active && Enables(step, k)) || (to == Disabled && TurnsOff(step, k))
    case _ =>
      || (to == Disabling && step == Disable(k))
      || (to == Disabled && step == DisableUnfenced(k))
      || (to == Active && step.Acknowledge? && step.claim.key == k)
      || (to in {Blocked, RebuildRequired} && step.GiveUp? && step.claim.key == k)
  }

  /** Where a step that names the stream leaves it. */
  predicate StatusAfter(step: Step, k: StreamKey, from: Status, to: Status) {
    && (step == Disable(k) ==> to == Disabling)
    && (TurnsOff(step, k) ==> to == Disabled)
    && (Enables(step, k) ==> to == Active)
    && (step.Acknowledge? && step.claim.key == k && from != Disabling ==> to == Active)
    && (step.GiveUp? && step.claim.key == k && from != Disabling ==> to == step.status)
  }

  predicate StatusOk(s: State, s': State, step: Step, k: StreamKey)
    requires k in s.rows
  {
    && k in s'.rows
    && var from, to := s.rows[k].status, s'.rows[k].status;
    && (to == from || StatusMove(from, to, step, k)) && StatusAfter(step, k, from, to)
  }

  lemma OutsideMovesStatus(s: State, s': State, step: Step, k: StreamKey)
    requires Next(s, s', step) && Outside(step) && k in s.rows
    ensures StatusOk(s, s', step, k)
  {
  }

  lemma ClaimMovesStatus(s: State, s': State, step: Step, k: StreamKey)
    requires Next(s, s', step) && (step.Acknowledge? || step.FinishDisable? || step.GiveUp?)
    requires k in s.rows && RowOk(s, k)
    ensures StatusOk(s, s', step, k)
  {
  }

  /** A stream changes its status only by these moves; so a disable once asked for is undone only by
      enabling the stream again, and a disabled stream is left alone until then. */
  lemma StatusMoves(s: State, s': State, step: Step, k: StreamKey)
    requires Inv(s) && Next(s, s', step) && k in s.rows
    ensures StatusOk(s, s', step, k)
  {
    if Outside(step) {
      OutsideMovesStatus(s, s', step, k);
    } else if step.Acknowledge? || step.FinishDisable? || step.GiveUp? {
      assert RowOk(s, k);
      ClaimMovesStatus(s, s', step, k);
    } else {
      PreparingKeepsRows(s, s', step);
    }
  }

  predicate Off(s: State, k: StreamKey) {
    k in s.rows && s.rows[k].status in {Disabling, Disabled}
  }

  /** Every claim of the stream after epoch `e` was taken by the workers to fence it; none by an
      operator rebuild or to reconcile it. */
  predicate OnlyFences(s: State, k: StreamKey, e: nat) {
    forall c :: c in s.acts && c.key == k && e < c.epoch ==> s.acts[c].disabling && s.acts[c].mode == Pending
  }

  lemma OnlyFencesStays(s: State, s': State, step: Step, k: StreamKey, e: nat)
    requires Inv(s) && Next(s, s', step) && Off(s, k) && OnlyFences(s, k, e)
    ensures OnlyFences(s', k, e)
  {
    forall c | c in s'.acts && c.key == k && e < c.epoch ensures s'.acts[c].disabling && s'.acts[c].mode == Pending {
      if !step.Claim? { DisablingStays(s, s', step, c); }
    }
  }

  lemma DisablingStays(s: State, s': State, step: Step, c: ClaimId)
    requires Next(s, s', step) && !step.Claim? && c in s'.acts
    ensures c in s.acts && s'.acts[c].disabling == s.acts[c].disabling && s'.acts[c].mode == s.acts[c].mode
  {
  }

  /** Once a disable is asked for, and until the stream is enabled again: it stays disabling or
      disabled, becomes disabled only by a completed fence or the unfenced escape hatch, and every
      claim taken meanwhile only fences. */
  lemma {:induction false} DisableStands(ss: seq<State>, ts: seq<Step>, i: nat, j: nat, k: StreamKey)
    requires Run(ss, ts) && i <= j < |ss| && Off(ss[i], k)
    requires forall n :: i <= n < j ==> !Enables(ts[n], k)
    ensures Off(ss[j], k) && OnlyFences(ss[j], k, ss[i].rows[k].epoch)
    ensures ss[i].rows[k].status == Disabling && ss[j].rows[k].status == Disabled ==>
      exists n :: i <= n < j && TurnsOff(ts[n], k)
  {
    RunHolds(ss, ts, i);
    if i == j {
      forall c | c in ss[i].acts && c.key == k ensures c.epoch <= ss[i].rows[k].epoch { assert ActOk(ss[i], c); }
    } else {
      DisableStands(ss, ts, i, j - 1, k);
      RunHolds(ss, ts, j - 1);
      assert Next(ss[j - 1], ss[j], ts[j - 1]) && !Enables(ts[j - 1], k);
      StatusMoves(ss[j - 1], ss[j], ts[j - 1], k);
      OnlyFencesStays(ss[j - 1], ss[j], ts[j - 1], k, ss[i].rows[k].epoch);
    }
  }

  /** From the disable on, no claim sends a write for the stream until it is enabled again. */
  lemma NothingIsProjectedAfterADisable(ss: seq<State>, ts: seq<Step>, i: nat, j: nat, c: ClaimId)
    requires Run(ss, ts) && i <= j < |ss| && Off(ss[i], c.key) && ss[i].rows[c.key].epoch < c.epoch
    requires forall n :: i <= n < j ==> !Enables(ts[n], c.key)
    ensures c in ss[j].wire ==> ss[j].wire[c].intent.FenceOut?
  {
    DisableStands(ss, ts, i, j, c.key);
    RunHolds(ss, ts, j);
    if c in ss[j].wire { assert RequestOk(ss[j], c); }
  }

  // ---- leases -------------------------------------------------------------------------------

  /** While the claim's lease is recorded it has this owner and this end. */
  predicate Term(s: State, c: ClaimId, owner: string, end: nat) {
    && c.key in s.rows && c.epoch <= s.rows[c.key].epoch
    && (Live(s, c) ==> s.rows[c.key].owner == Some(owner) && s.rows[c.key].until == end)
  }

  lemma TermStays(s: State, s': State, step: Step, c: ClaimId, owner: string, end: nat)
    requires Next(s, s', step) && Term(s, c, owner, end)
    ensures Term(s', c, owner, end)
  {
    if Preparing(step) || step.Land? || step.ReadBack? || step.Stop? { PreparingKeepsRows(s, s', step); }
  }

  /** The claim that a step takes. */
  predicate Takes(s: State, step: Step, c: ClaimId) {
    step.Claim? && step.key in s.rows && c == ClaimId(step.key, s.rows[step.key].epoch + 1)
  }

  lemma {:induction false} TermOfLease(ss: seq<State>, ts: seq<Step>, i: nat, j: nat, c: ClaimId)
    requires Run(ss, ts) && i < j < |ss| && Takes(ss[i], ts[i], c)
    ensures Term(ss[j], c, ts[i].owner, ss[i].now + ts[i].ttl)
  {
    assert Next(ss[j - 1], ss[j], ts[j - 1]);
    if j > i + 1 {
      TermOfLease(ss, ts, i, j - 1, c);
      TermStays(ss[j - 1], ss[j], ts[j - 1], c, ts[i].owner, ss[i].now + ts[i].ttl);
    }
  }

  /** A write id is minted only before the claim's lease runs out, counted from the moment the claim
      was taken. */
  lemma AuthorisedWithinTheLease(ss: seq<State>, ts: seq<Step>, i: nat, j: nat, c: ClaimId, n: nat)
    requires Run(ss, ts) && i < j < |ts| && Takes(ss[i], ts[i], c) && ts[j] == Authorise(c, n)
    ensures ss[j].now < ss[i].now + ts[i].ttl
    ensures c.key in ss[j].rows && ss[j].rows[c.key].epoch == c.epoch && ss[j].rows[c.key].owner == Some(ts[i].owner)
  {
    TermOfLease(ss, ts, i, j, c);
    assert Next(ss[j], ss[j + 1], ts[j]);
  }

  /** A step that ends a claim's lease before its time: the claim's own, or the escape hatch. */
  predicate EndsLease(step: Step, c: ClaimId) {
    || (step.Acknowledge? && step.claim == c) || (step.FinishDisable? && step.claim == c)
    || (step.GiveUp? && step.claim == c) || step == DisableUnfenced(c.key)
  }

  predicate Running(s: State, c: ClaimId) {
    Leased(s, c) && s.now <= s.rows[c.key].until
  }

  lemma LeaseIsKept(s: State, s': State, step: Step, c: ClaimId)
    requires Inv(s) && Next(s, s', step) && Running(s, c) && !EndsLease(step, c)
    ensures Leased(s', c) && s'.rows[c.key].until == s.rows[c.key].until
  {
    OwnerStays(s, s', step, c);
    if Preparing(step) || step.Land? || step.ReadBack? || step.Stop? { PreparingKeepsRows(s, s', step); }
  }

  lemma OwnerStays(s: State, s': State, step: Step, c: ClaimId)
    requires Inv(s) && Next(s, s', step) && c in s.acts
    ensures c in s'.acts && s'.acts[c].owner == s.acts[c].owner
  {
    assert ActOk(s, c);
  }

  lemma TimePassesByOne(s: State, s': State, step: Step)
    requires Next(s, s', step)
    ensures s.now <= s'.now
  {
  }

  /** Nobody takes a claim's stream before its lease has run out: until then the lease stays, unless
      the claim itself gives it back or the operator disables the stream unfenced. */
  lemma {:induction false} LeaseIsExclusive(ss: seq<State>, ts: seq<Step>, i: nat, j: nat, c: ClaimId)
    requires Run(ss, ts) && i <= j < |ss| && Leased(ss[i], c) && ss[j].now <= ss[i].rows[c.key].until
    requires forall n :: i <= n < j ==> !EndsLease(ts[n], c)
    ensures Leased(ss[j], c) && ss[j].rows[c.key].until == ss[i].rows[c.key].until
    ensures forall d: ClaimId :: d.key == c.key && Leased(ss[j], d) ==> d == c
  {
    if i < j {
      assert Next(ss[j - 1], ss[j], ts[j - 1]) && !EndsLease(ts[j - 1], c);
      TimePassesByOne(ss[j - 1], ss[j], ts[j - 1]);
      LeaseIsExclusive(ss, ts, i, j - 1, c);
      RunHolds(ss, ts, j - 1);
      LeaseIsKept(ss[j - 1], ss[j], ts[j - 1], c);
    }
  }

  /** A step of the claim that gives its lease back leaves the stream free. */
  lemma EndedLeaseIsFree(s: State, s': State, step: Step, c: ClaimId)
    requires Next(s, s', step) && EndsLease(step, c)
    ensures c.key in s'.rows && s'.rows[c.key].owner.None?
  {
  }

  // ---- recorded progress ----------------------------------------------------------------------

  /** Events lie within their ref, and recorded progress names a commit the ref accepted. */
  predicate Booked(s: State) {
    && (forall k :: k in s.refs ==> EventsWithin(s.refs[k]))
    && (forall k :: k in s.rows && s.rows[k].projected.Some? ==>
          k in s.refs && s.refs[k].Names(s.rows[k].projected.value.0, s.rows[k].projected.value.1))
  }

  predicate Advances(a: Row, b: Row) {
    a.projected.Some? ==> b.projected.Some? && a.projected.value.1 <= b.projected.value.1
  }

  lemma RecordAdvances(s: State, s': State, step: Step, k: StreamKey)
    requires Next(s, s', step) && k in s.rows
    ensures k in s'.rows && Advances(s.rows[k], s'.rows[k])
  {
    if Preparing(step) || step.Land? || step.ReadBack? || step.Stop? { PreparingKeepsRows(s, s', step); }
  }

  predicate EventsWithin(ref: Ref) { forall e :: e in ref.events ==> 1 <= e <= |ref.commits| }

  lemma AcceptGrowsRef(s: State, s': State, k: StreamKey, commit: Commit, event: bool, l: StreamKey)
    requires NextAccept(s, s', k, commit, event) && l in s.refs && EventsWithin(s.refs[l])
    ensures l in s'.refs && RefGrows(s.refs[l], s'.refs[l]) && EventsWithin(s'.refs[l])
  {
  }

  lemma OnlyAcceptMovesRefs(s: State, s': State, step: Step)
    requires Next(s, s', step)
    ensures s'.refs.Keys == s.refs.Keys && (!step.Accept? ==> s'.refs == s.refs)
  {
    if !step.Accept? && !step.Land? && !step.Send? { OnlyThreeWrite(s, s', step); }
  }

  lemma RefStaysBooked(s: State, s': State, step: Step, k: StreamKey)
    requires Next(s, s', step) && k in s.refs && EventsWithin(s.refs[k])
    ensures k in s'.refs && RefGrows(s.refs[k], s'.refs[k]) && EventsWithin(s'.refs[k])
  {
    OnlyAcceptMovesRefs(s, s', step);
    if step.Accept? { AcceptGrowsRef(s, s', step.key, step.commit, step.event, k); }
  }

  lemma RowStaysBooked(s: State, s': State, step: Step, k: StreamKey)
    requires Booked(s) && Next(s, s', step) && k in s'.rows && s'.rows[k].projected.Some?
    ensures k in s'.refs && s'.refs[k].Names(s'.rows[k].projected.value.0, s'.rows[k].projected.value.1)
  {
    if k !in s.rows || s'.rows[k].projected != s.rows[k].projected {
      OnlyAcknowledgeRecords(s, s', step, k);
    } else {
      RefStaysBooked(s, s', step, k);
    }
  }

  lemma NextBooks(s: State, s': State, step: Step)
    requires Inv(s) && Booked(s) && Next(s, s', step)
    ensures Booked(s')
  {
    OnlyAcceptMovesRefs(s, s', step);
    forall k | k in s'.refs ensures EventsWithin(s'.refs[k]) { RefStaysBooked(s, s', step, k); }
    forall k | k in s'.rows && s'.rows[k].projected.Some?
      ensures k in s'.refs && s'.refs[k].Names(s'.rows[k].projected.value.0, s'.rows[k].projected.value.1)
    {
      RowStaysBooked(s, s', step, k);
    }
  }

  lemma {:induction false} RunBooks(ss: seq<State>, ts: seq<Step>, i: nat)
    requires Run(ss, ts) && i < |ss|
    ensures Booked(ss[i])
  {
    if i > 0 {
      RunBooks(ss, ts, i - 1);
      RunHolds(ss, ts, i - 1);
      NextBooks(ss[i - 1], ss[i], ts[i - 1]);
    }
  }

  /** Recorded progress never goes back, and always names an accepted change of the ref. */
  lemma {:induction false} RecordedProgressAdvances(ss: seq<State>, ts: seq<Step>, i: nat, j: nat, k: StreamKey)
    requires Run(ss, ts) && i <= j < |ss| && k in ss[i].rows
    ensures k in ss[j].rows && Advances(ss[i].rows[k], ss[j].rows[k]) && Booked(ss[j])
  {
    RunBooks(ss, ts, j);
    if i < j {
      RecordedProgressAdvances(ss, ts, i, j - 1, k);
      assert Next(ss[j - 1], ss[j], ts[j - 1]);
      RecordAdvances(ss[j - 1], ss[j], ts[j - 1], k);
    }
  }
}
