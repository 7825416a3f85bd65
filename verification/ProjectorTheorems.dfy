/** The promises of the projection protocol, over every interleaving of claims, expiries,
    crashes and delayed requests. */
module ProjectorTheorems {
  import opened Basics
  import opened Projection
  import opened Projector
  import opened ProjectorSafety

  ghost predicate Path(ss: seq<State>, ts: seq<Step>) {
    |ss| == |ts| + 1 && (forall i :: 0 <= i < |ts| ==> Next(ss[i], ss[i + 1], ts[i]))
  }

  lemma {:induction false} PathKeeps(ss: seq<State>, ts: seq<Step>, i: nat)
    requires Path(ss, ts) && Inv(ss[0]) && i < |ss|
    ensures Inv(ss[i])
  {
    if i > 0 {
      PathKeeps(ss, ts, i - 1);
      NextKeeps(ss[i - 1], ss[i], ts[i - 1]);
    }
  }

  lemma InitHolds(s: State)
    requires Init(s)
    ensures Inv(s)
  {
    forall g, j: nat | g in s.log && j < |s.log[g]| ensures EntryOk(s, g, j) {}
    forall g | g in s.log ensures TipOk(s, g) && Distinct(s.log[g]) {}
  }

  lemma RunHolds(ss: seq<State>, ts: seq<Step>, i: nat)
    requires Run(ss, ts) && i < |ss|
    ensures Inv(ss[i])
  {
    InitHolds(ss[0]);
    PathKeeps(ss, ts, i);
  }

  // ---- no marker value repeats ----------------------------------------------------------

  /** The log only grows, and always ends in the current marker value. */
  lemma {:induction false} LogGrows(ss: seq<State>, ts: seq<Step>, i: nat, j: nat, g: Graph)
    requires Path(ss, ts) && i <= j < |ss| && g in ss[i].log
    ensures g in ss[j].log && ss[i].log[g] <= ss[j].log[g]
  {
    if i < j {
      LogGrows(ss, ts, i, j - 1, g);
      assert Next(ss[j - 1], ss[j], ts[j - 1]);
      LogGrowsByOne(ss[j - 1], ss[j], ts[j - 1], g);
    }
  }

  lemma LogGrowsByOne(s: State, s': State, step: Step, g: Graph)
    requires Next(s, s', step) && g in s.log
    ensures g in s'.log && s.log[g] <= s'.log[g]
  {
  }

  /** The version guard of the update by itself: a conditional write applies only where every numeric
      version on the subject is lower than its own and none is unreadable. */
  lemma ConditionalUpdateRaisesTheVersion(t: Target, r: Request)
    requires Applies(t, r) && r.intent.Project? && r.intent.mode == Conditional
    ensures MaxRefVersion(t.terms).Some? ==> MaxRefVersion(t.terms).value < r.marker.version
    ensures t.terms.body.Malformed? ==> !t.terms.body.unnumbered
  {
  }

  /** A landing either changes nothing, or finds the marker exactly as its sender observed it,
      with nothing landed since that observation, and installs a value the graph never had. */
  lemma LandingInstallsAFreshMarker(ss: seq<State>, ts: seq<Step>, i: nat, j: nat)
    requires Run(ss, ts) && j <= i < |ts| && ts[i].Land? && ss[i + 1] != ss[i]
    ensures var c := ts[i].claim;
            && c in ss[i].wire
            && var r := ss[i].wire[c];
            && r.graph in ss[i].targets && r.graph in ss[i + 1].targets && r.graph in ss[i].log
            && ss[i].targets[r.graph].terms == r.obs.terms
            && |ss[i].log[r.graph]| == r.seen
            && ss[i + 1].targets[r.graph].terms.writeId == Some(r.writeId)
            && (r.graph in ss[j].targets ==> ss[j].targets[r.graph].terms != ss[i + 1].targets[r.graph].terms)
  {
    var c := ts[i].claim;
    RunHolds(ss, ts, i);
    RunHolds(ss, ts, j);
    ApplyingIsFresh(ss[i], c, ts[i].counted);
    var g := ss[i].wire[c].graph;
    if g in ss[j].targets {
      LogGrows(ss, ts, j, i, g);
      assert TipOk(ss[j], g);
      var last := |ss[j].log[g]| - 1;
      assert ss[i].log[g][last] == ss[j].targets[g].terms;
    }
  }

  // ---- what an acknowledgement proves ----------------------------------------------------

  /** The target holds exactly the marker the claim's request carries, over the state of the
      commit it names, and the database records that commit and version. */
  predicate RecordsOwnWrite(s: State, c: ClaimId) {
    && c in s.wire && c.key in s.rows && GraphOf(s, c) in s.targets
    && var r := s.wire[c];
    && var t := s.targets[GraphOf(s, c)];
    && r.writeId.Minted? && r.writeId.claim == c && r.intent.Project?
    && t.terms == Terms(Well(r.marker.(count := t.count)), Some(r.writeId))
    && t.content == Some(r.intent.work.commit)
    && s.rows[c.key].projected == Some((r.intent.work.commit, r.intent.work.version))
  }

  /** When a writing claim's acknowledgement commits, nothing has replaced what it wrote and
      read back, and the graph counts a plausible number of triples for the state written. */
  lemma AcknowledgedWriteIsStillThere(ss: seq<State>, ts: seq<Step>, i: nat, c: ClaimId)
    requires Run(ss, ts) && i < |ts| && ts[i] == Acknowledge(c)
    requires c in ss[i].acts && ss[i].acts[c].phase.Verified?
    ensures RecordsOwnWrite(ss[i + 1], c)
    ensures ss[i + 1].targets[GraphOf(ss[i + 1], c)].terms == ss[i].acts[c].phase.terms
    ensures
      var count, size := ss[i + 1].targets[GraphOf(ss[i + 1], c)].count, ss[i].acts[c].phase.size;
      count <= size && (size > 0 ==> count > 0)
  {
    var s := ss[i];
    assert Next(s, ss[i + 1], ts[i]);
    RunHolds(ss, ts, i);
    assert ActOk(s, c) && RequestOk(s, c) && TipOk(s, GraphOf(s, c));
  }

  // ---- what a disable rules out ----------------------------------------------------------

  /** The value is one the graph has had and no longer has. */
  predicate Dead(s: State, g: Graph, t: Terms) {
    g in s.log && g in s.targets && t in s.log[g] && t != s.targets[g].terms
  }

  predicate Upto(c: ClaimId, k: StreamKey, e: nat) {
    c.key == k && c.epoch <= e
  }

  /** A claim that passed its lease check may only replace what it observed; here that is dead. */
  predicate EntitledToDead(s: State, c: ClaimId)
    requires c.key in s.rows
  {
    && (c in s.wire ==> Dead(s, GraphOf(s, c), s.wire[c].obs.terms))
    && (c in s.acts && s.acts[c].phase.Authorised? ==> Dead(s, GraphOf(s, c), s.acts[c].phase.obs.terms))
  }

  /** No claim of `k` up to epoch `e` has its lease, and each is entitled to dead values only. */
  ghost predicate FencedOff(s: State, k: StreamKey, e: nat) {
    && k in s.rows && e <= s.rows[k].epoch
    && (s.rows[k].epoch == e ==> s.rows[k].owner.None?)
    && (forall c: ClaimId {:trigger EntitledToDead(s, c)} :: Upto(c, k, e) ==> EntitledToDead(s, c))
  }

  /** Whatever happens next, no request of a claim of `k` up to epoch `e` takes effect. */
  ghost predicate NeverLands(s: State, k: StreamKey, e: nat) {
    forall ss: seq<State>, ts: seq<Step>, j {:trigger Path(ss, ts), ts[j]} ::
      Path(ss, ts) && ss[0] == s && 0 <= j < |ts| && ts[j].Land? && Upto(ts[j].claim, k, e) ==> ss[j + 1] == ss[j]
  }

  lemma LandKeepsDead(s: State, s': State, c: ClaimId, counted: nat, g: Graph, t: Terms)
    requires Inv(s) && NextLand(s, s', c, counted) && Dead(s, g, t)
    ensures Dead(s', g, t)
  {
    if Applies(s.targets[s.wire[c].graph], s.wire[c]) {
      ApplyingIsFresh(s, c, counted);
    }
  }

  lemma LandKeepsEntitlement(s: State, s': State, c: ClaimId, counted: nat, d: ClaimId)
    requires Inv(s) && NextLand(s, s', c, counted) && d.key in s.rows && EntitledToDead(s, d)
    ensures EntitledToDead(s', d)
  {
    if d in s.wire { LandKeepsDead(s, s', c, counted, GraphOf(s, d), s.wire[d].obs.terms); }
    if d in s.acts && s.acts[d].phase.Authorised? {
      LandKeepsDead(s, s', c, counted, GraphOf(s, d), s.acts[d].phase.obs.terms);
    }
  }

  predicate Spent(s: State, d: ClaimId) {
    d.key in s.rows && EntitledToDead(s, d) && !Live(s, d) && d.epoch <= s.rows[d.key].epoch
  }

  lemma OutsideAddsNone(s: State, s': State, step: Step, d: ClaimId)
    requires Next(s, s', step) && Outside(step) && Spent(s, d)
    ensures d.key in s'.rows && EntitledToDead(s', d)
  {
  }

  lemma SendAddsNone(s: State, s': State, c: ClaimId, digest: string, d: ClaimId)
    requires NextSend(s, s', c, digest) && Spent(s, d)
    ensures d.key in s'.rows && EntitledToDead(s', d)
  {
  }

  lemma PreparingAddsNone(s: State, s': State, step: Step, d: ClaimId)
    requires Next(s, s', step) && Preparing(step) && Spent(s, d)
    ensures d.key in s'.rows && EntitledToDead(s', d)
  {
    if step.Send? { SendAddsNone(s, s', step.claim, step.digest, d); } else { MovingAddsNone(s, s', step, d); }
  }

  lemma MovingAddsNone(s: State, s': State, step: Step, d: ClaimId)
    requires Next(s, s', step) && Preparing(step) && !step.Send? && Spent(s, d)
    ensures d.key in s'.rows && EntitledToDead(s', d)
  {
  }

  /** A claim without its lease gains no entitlement. */
  lemma NoNewEntitlement(s: State, s': State, step: Step, d: ClaimId)
    requires Next(s, s', step) && !step.Land? && Spent(s, d)
    ensures d.key in s'.rows && EntitledToDead(s', d)
  {
    if Outside(step) {
      OutsideAddsNone(s, s', step, d);
    } else if Preparing(step) {
      PreparingAddsNone(s, s', step, d);
    }
  }

  lemma LeaseStaysOver(s: State, s': State, step: Step, k: StreamKey, e: nat)
    requires Next(s, s', step) && k in s.rows && e <= s.rows[k].epoch
    requires s.rows[k].epoch == e ==> s.rows[k].owner.None?
    ensures k in s'.rows && e <= s'.rows[k].epoch && (s'.rows[k].epoch == e ==> s'.rows[k].owner.None?)
  {
  }

  lemma FencedOffStays(s: State, s': State, step: Step, k: StreamKey, e: nat)
    requires Inv(s) && Next(s, s', step) && FencedOff(s, k, e)
    ensures FencedOff(s', k, e)
  {
    LeaseStaysOver(s, s', step, k, e);
    forall c: ClaimId | Upto(c, k, e) ensures EntitledToDead(s', c) {
      assert EntitledToDead(s, c);
      if step.Land? {
        LandKeepsEntitlement(s, s', step.claim, step.counted, c);
      } else {
        NoNewEntitlement(s, s', step, c);
      }
    }
  }

  lemma {:induction false} FencedOffForever(ss: seq<State>, ts: seq<Step>, k: StreamKey, e: nat, i: nat)
    requires Path(ss, ts) && Inv(ss[0]) && FencedOff(ss[0], k, e) && i < |ss|
    ensures FencedOff(ss[i], k, e)
  {
    if i > 0 {
      FencedOffForever(ss, ts, k, e, i - 1);
      PathKeeps(ss, ts, i - 1);
      FencedOffStays(ss[i - 1], ss[i], ts[i - 1], k, e);
    }
  }

  lemma FencedOffNeverLands(s: State, k: StreamKey, e: nat)
    requires Inv(s) && FencedOff(s, k, e)
    ensures NeverLands(s, k, e)
  {
    forall ss: seq<State>, ts: seq<Step>, j | Path(ss, ts) && ss[0] == s && 0 <= j < |ts| && ts[j].Land?
      && Upto(ts[j].claim, k, e)
      ensures ss[j + 1] == ss[j]
    {
      FencedOffForever(ss, ts, k, e, j);
      PathKeeps(ss, ts, j);
      assert Next(ss[j], ss[j + 1], ts[j]);
      assert EntitledToDead(ss[j], ts[j].claim) && RequestOk(ss[j], ts[j].claim);
    }
  }

  /** Once a fence was read back and the disable commits, no write or fence planned under that
      claim or any earlier claim of the stream takes effect, in any continuation. */
  lemma FencedDisableIsFinal(ss: seq<State>, ts: seq<Step>, i: nat, c: ClaimId)
    requires Run(ss, ts) && i < |ts| && ts[i] == FinishDisable(c)
    ensures NeverLands(ss[i + 1], c.key, c.epoch)
  {
    var s, s' := ss[i], ss[i + 1];
    RunHolds(ss, ts, i);
    RunHolds(ss, ts, i + 1);
    assert ActOk(s, c) && RequestOk(s, c) && TipOk(s, GraphOf(s, c));
    var t := s.targets[GraphOf(s, c)].terms;
    assert MintedBy(t, c);
    forall d: ClaimId | Upto(d, c.key, c.epoch) ensures EntitledToDead(s', d) {
      if d in s.wire { assert RequestOk(s, d); }
      if d in s.acts { assert ActOk(s, d); }
    }
    FencedOffNeverLands(s', c.key, c.epoch);
  }
}
