/** Where the marker values of a graph come from: which of them a projector of this database
    installed, what those name, and what becomes of a value once shown. */
module ProjectorOrigins {
  import opened Projection
  import opened Projector
  import opened ProjectorSafety

  /** The request that minted a value, if it is on the wire. */
  predicate By(s: State, t: Terms, intent: Intent -> bool) {
    IsMinted(t) && t.writeId.value.claim in s.wire && intent(s.wire[t.writeId.value.claim].intent)
  }

  predicate Fencing(i: Intent) { i.FenceOut? }

  predicate Rebuilding(i: Intent) { i.Project? && i.mode == Replace }

  /** Entry `j` still carries the body the graph had before any projector of this database: the
      first entry, or a fence over such an entry. Every other entry was installed by a write. */
  predicate Inherited(s: State, g: Graph, j: nat)
    requires g in s.log && j < |s.log[g]|
  {
    j == 0 || (By(s, s.log[g][j], Fencing) && Inherited(s, g, j - 1))
  }

  /** A marker that names a commit its ref accepted at its version. */
  predicate NamedBody(s: State, b: Body) {
    b.Well? && b.marker.key in s.refs && s.refs[b.marker.key].Names(b.marker.commit, b.marker.version)
  }

  predicate OriginOk(s: State, g: Graph, j: nat)
    requires g in s.log && j < |s.log[g]|
  {
    if Inherited(s, g, j) then s.log[g][j].body == s.log[g][0].body else NamedBody(s, s.log[g][j].body)
  }

  /** Over an installed marker the graph counts what the marker says. */
  predicate CountOk(s: State, g: Graph)
    requires g in s.log && g in s.targets
  {
    |s.log[g]| >= 1
    && (!Inherited(s, g, |s.log[g]| - 1) ==>
          s.targets[g].terms.body.Well? && s.targets[g].terms.body.marker.count == s.targets[g].count)
  }

  /** A rebuild installed an entry after `j`. */
  predicate Rebuilt(s: State, g: Graph, j: nat)
    requires g in s.log
  {
    exists i: nat {:trigger s.log[g][i]} :: j < i < |s.log[g]| && By(s, s.log[g][i], Rebuilding)
  }

  predicate AtOrBeyond(b: Body, k: StreamKey, version: int) {
    b.Well? && b.marker.key == k && b.marker.version >= version
  }

  /** Unless a rebuild came after it, a marker once shown is followed by the same stream's markers
      at the same version or later. */
  predicate KeptFrom(s: State, g: Graph, j: nat)
    requires g in s.log && j < |s.log[g]|
  {
    var b := s.log[g][j].body;
    b.Well? ==> Rebuilt(s, g, j) || AtOrBeyond(s.log[g][|s.log[g]| - 1].body, b.marker.key, b.marker.version)
  }

  predicate Origins(s: State) {
    && s.targets.Keys == s.log.Keys
    && (forall g, j: nat {:trigger OriginOk(s, g, j)} :: g in s.log && j < |s.log[g]| ==> OriginOk(s, g, j))
    && (forall g, j: nat {:trigger KeptFrom(s, g, j)} :: g in s.log && j < |s.log[g]| ==> KeptFrom(s, g, j))
    && (forall g {:trigger CountOk(s, g)} :: g in s.log ==> CountOk(s, g))
  }

  /** Below an inherited entry every entry is inherited. */
  lemma {:induction false} InheritedBelow(s: State, g: Graph, i: nat, j: nat)
    requires g in s.log && i <= j < |s.log[g]| && Inherited(s, g, j)
    ensures Inherited(s, g, i)
  {
    if i < j { InheritedBelow(s, g, i, j - 1); }
  }

  lemma InitOrigins(s: State)
    requires Init(s)
    ensures Origins(s)
  {
    forall g, j: nat | g in s.log && j < |s.log[g]| ensures OriginOk(s, g, j) && KeptFrom(s, g, j) {}
    forall g | g in s.log ensures CountOk(s, g) {}
  }

  // ---- preservation ---------------------------------------------------------------------

  /** A ref gains commits, and events only beyond its old head. */
  predicate RefGrows(a: Ref, b: Ref) {
    && a.commits <= b.commits && a.events <= b.events
    && forall e :: e in b.events ==> e in a.events || |a.commits| < e
  }

  /** Requests stay on the wire, refs only grow, logs keep their entries. */
  predicate Remembers(s: State, s': State) {
    && (forall c :: c in s.wire ==> c in s'.wire && s'.wire[c] == s.wire[c])
    && (forall k :: k in s.refs ==> k in s'.refs && RefGrows(s.refs[k], s'.refs[k]))
    && (forall g :: g in s.log ==> g in s'.log && s.log[g] <= s'.log[g])
  }

  lemma SendRemembers(s: State, s': State, c: ClaimId, digest: string)
    requires Inv(s) && NextSend(s, s', c, digest)
    ensures Remembers(s, s')
  {
    assert ActOk(s, c);
  }

  lemma AcceptRemembers(s: State, s': State, k: StreamKey, commit: Commit, event: bool)
    requires NextAccept(s, s', k, commit, event)
    ensures Remembers(s, s')
  {
  }

  lemma LandRemembers(s: State, s': State, c: ClaimId, counted: nat)
    requires NextLand(s, s', c, counted)
    ensures Remembers(s, s')
  {
  }

  lemma OnlyThreeWrite(s: State, s': State, step: Step)
    requires Next(s, s', step) && !step.Accept? && !step.Land? && !step.Send?
    ensures s'.refs == s.refs && s'.log == s.log && s'.wire == s.wire
  {
  }

  lemma NextRemembers(s: State, s': State, step: Step)
    requires Inv(s) && Next(s, s', step)
    ensures Remembers(s, s')
  {
    if step.Send? {
      SendRemembers(s, s', step.claim, step.digest);
    } else if step.Accept? {
      AcceptRemembers(s, s', step.key, step.commit, step.event);
    } else if step.Land? {
      LandRemembers(s, s', step.claim, step.counted);
    } else {
      OnlyThreeWrite(s, s', step);
    }
  }

  /** An old entry's writer is on the wire before and after. */
  lemma WriterStays(s: State, s': State, g: Graph, j: nat, intent: Intent -> bool)
    requires Inv(s) && Remembers(s, s') && g in s.log && j < |s.log[g]|
    ensures By(s', s'.log[g][j], intent) <==> By(s, s.log[g][j], intent)
  {
    assert EntryOk(s, g, j);
  }

  lemma {:induction false} InheritedStays(s: State, s': State, g: Graph, j: nat)
    requires Inv(s) && Remembers(s, s') && g in s.log && j < |s.log[g]|
    ensures Inherited(s', g, j) <==> Inherited(s, g, j)
  {
    if j > 0 {
      WriterStays(s, s', g, j, Fencing);
      InheritedStays(s, s', g, j - 1);
    }
  }

  lemma OriginStays(s: State, s': State, g: Graph, j: nat)
    requires Inv(s) && Remembers(s, s') && g in s.log && j < |s.log[g]| && OriginOk(s, g, j)
    ensures OriginOk(s', g, j)
  {
    InheritedStays(s, s', g, j);
  }

  lemma RebuiltStays(s: State, s': State, g: Graph, j: nat)
    requires Inv(s) && Remembers(s, s') && g in s.log && Rebuilt(s, g, j)
    ensures Rebuilt(s', g, j)
  {
    var i: nat :| j < i < |s.log[g]| && By(s, s.log[g][i], Rebuilding);
    WriterStays(s, s', g, i, Rebuilding);
    assert By(s', s'.log[g][i], Rebuilding);
  }

  lemma KeptStays(s: State, s': State, g: Graph, j: nat)
    requires Inv(s) && Remembers(s, s') && g in s.log && j < |s.log[g]| && KeptFrom(s, g, j)
    requires s'.log[g] == s.log[g]
    ensures KeptFrom(s', g, j)
  {
    if Rebuilt(s, g, j) { RebuiltStays(s, s', g, j); }
  }

  lemma CountStays(s: State, s': State, g: Graph)
    requires Inv(s) && Remembers(s, s') && g in s.log && g in s.targets && CountOk(s, g)
    requires s'.log[g] == s.log[g] && g in s'.targets && s'.targets[g] == s.targets[g]
    ensures CountOk(s', g)
  {
    InheritedStays(s, s', g, |s.log[g]| - 1);
  }

  /** A step that leaves the target alone. */
  lemma UntouchedOrigins(s: State, s': State)
    requires Inv(s) && Origins(s) && Remembers(s, s') && s'.log == s.log && s'.targets == s.targets
    ensures Origins(s')
  {
    forall g, j: nat | g in s'.log && j < |s'.log[g]| ensures OriginOk(s', g, j) && KeptFrom(s', g, j) {
      assert OriginOk(s, g, j) && KeptFrom(s, g, j);
      OriginStays(s, s', g, j);
      KeptStays(s, s', g, j);
    }
    forall g | g in s'.log ensures CountOk(s', g) {
      assert CountOk(s, g);
      CountStays(s, s', g);
    }
  }

  /** What a request must satisfy for its landing to keep origins: it names an accepted commit, and
      a conditional one was planned over nothing or over an older marker of its own stream. */
  predicate Fair(s: State, k: StreamKey, intent: Intent, t: Terms) {
    intent.Project? ==>
      && k in s.refs && s.refs[k].Names(intent.work.commit, intent.work.version)
      && (intent.mode == Conditional ==>
            || Read(t).Absent?
            || (Read(t).Present? && Read(t).marker.key == k && Read(t).marker.version < intent.work.version))
  }

  lemma LandedOrigin(s: State, s': State, c: ClaimId, counted: nat)
    requires Inv(s) && Origins(s) && Remembers(s, s') && NextLand(s, s', c, counted)
    requires Applies(s.targets[s.wire[c].graph], s.wire[c]) && Fair(s, c.key, s.wire[c].intent, s.wire[c].obs.terms)
    ensures var g := s.wire[c].graph; OriginOk(s', g, |s.log[g]|) && CountOk(s', g)
  {
    var g := s.wire[c].graph;
    var j := |s.log[g]|;
    assert RequestOk(s, c) && TipOk(s, g) && CountOk(s, g) && OriginOk(s, g, j - 1);
    InheritedStays(s, s', g, j - 1);
    assert MintedBy(s'.log[g][j], c);
  }

  lemma LandedKept(s: State, s': State, c: ClaimId, counted: nat, j: nat)
    requires Inv(s) && Origins(s) && Remembers(s, s') && NextLand(s, s', c, counted)
    requires Applies(s.targets[s.wire[c].graph], s.wire[c]) && Fair(s, c.key, s.wire[c].intent, s.wire[c].obs.terms)
    requires j < |s.log[s.wire[c].graph]|
    ensures KeptFrom(s', s.wire[c].graph, j)
  {
    var g := s.wire[c].graph;
    assert RequestOk(s, c) && TipOk(s, g) && KeptFrom(s, g, j);
    assert MintedBy(s'.log[g][|s.log[g]|], c);
    if Rebuilt(s, g, j) {
      RebuiltStays(s, s', g, j);
    } else if Rebuilding(s.wire[c].intent) {
      assert By(s', s'.log[g][|s.log[g]|], Rebuilding);
    }
  }

  lemma LandOrigins(s: State, s': State, c: ClaimId, counted: nat)
    requires Inv(s) && Origins(s) && NextLand(s, s', c, counted)
      && Fair(s, c.key, s.wire[c].intent, s.wire[c].obs.terms)
    ensures Origins(s')
  {
    var g0 := s.wire[c].graph;
    if Applies(s.targets[g0], s.wire[c]) {
      assert Remembers(s, s');
      LandedOrigin(s, s', c, counted);
      forall g, j: nat | g in s'.log && j < |s'.log[g]| ensures OriginOk(s', g, j) && KeptFrom(s', g, j) {
        if j < |s.log[g]| {
          assert OriginOk(s, g, j) && KeptFrom(s, g, j);
          OriginStays(s, s', g, j);
          if g == g0 { LandedKept(s, s', c, counted, j); } else { KeptStays(s, s', g, j); }
        }
      }
      forall g | g in s'.log ensures CountOk(s', g) {
        if g != g0 { assert CountOk(s, g); CountStays(s, s', g); }
      }
    }
  }

  lemma OnlyLandTouches(s: State, s': State, step: Step)
    requires Next(s, s', step) && !step.Land?
    ensures s'.log == s.log && s'.targets == s.targets
  {
  }
}
