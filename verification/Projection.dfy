/** The projection marker and the decision a projector takes after one observation of its
    target (`crates/ledger-projection`). Digests are opaque strings; a write id is the preimage
    of its digest, so two write ids are equal exactly when their preimages are. */
module Projection {
  import opened Basics

  type Commit = string
  type Graph = string

  datatype StreamKey = StreamKey(graphId: string, branch: string)

  /** One claim of one stream: the fencing token. */
  datatype ClaimId = ClaimId(key: StreamKey, epoch: nat)

  datatype WriteId =
    | Foreign(raw: string)
    | Minted(claim: ClaimId, owner: string, n: nat)

  datatype Marker = Marker(key: StreamKey, commit: Commit, version: int, digest: string, count: nat)

  /** What the marker subject holds apart from its write id. A malformed subject may still
      carry numeric versions (`maxVersion`) or a non-numeric one (`unnumbered`). */
  datatype Body =
    | NoMarker
    | Malformed(raw: string, maxVersion: Option<int>, unnumbered: bool)
    | Well(marker: Marker)

  /** Every term of the marker subject: the precondition of a write planned from it. */
  datatype Terms = Terms(body: Body, writeId: Option<WriteId>)

  datatype MarkerRead = Absent | Broken | Present(marker: Marker)

  /** A subject holding nothing, or only a write id left by a fence, has no marker; a marker
      without its write id is malformed. */
  function Read(t: Terms): MarkerRead {
    match t.body
    case NoMarker => Absent
    case Malformed(_, _, _) => Broken
    case Well(m) => if t.writeId.Some? then Present(m) else Broken
  }

  function MaxRefVersion(t: Terms): Option<int> {
    match t.body
    case NoMarker => None
    case Malformed(_, v, _) => v
    case Well(m) => Some(m.version)
  }

  datatype Observation = Observation(terms: Terms, count: nat)

  /** The ledger facts of one stream at planning time. */
  datatype View = View(key: StreamKey, targetVersion: int, headVersion: int,
                       commitAtMarker: Option<Commit>, recorded: Option<int>)

  datatype Reason = MarkerMalformed | MarkerCommitMismatch | TripleCountMismatch | UnmarkedContent | TargetLost
  datatype Recovery = MarkerAhead | TargetConflict

  datatype Plan =
    | AlreadyProjected
    | AcknowledgeBeyond(commit: Commit, version: int)
    | WriteState(rebuild: Option<Reason>)
    | RecoveryRequired(code: Recovery)

  function Decide(view: View, obs: Observation): Plan {
    match Read(obs.terms)
    case Absent =>
      if obs.count == 0 then
        WriteState(if view.recorded.Some? then Some(TargetLost) else None)
      else WriteState(Some(UnmarkedContent))
    case Broken =>
      var v := MaxRefVersion(obs.terms);
      if v.Some? && v.value > view.headVersion then RecoveryRequired(MarkerAhead)
      else WriteState(Some(MarkerMalformed))
    case Present(m) =>
      if m.key != view.key then RecoveryRequired(TargetConflict)
      else if m.version > view.headVersion then RecoveryRequired(MarkerAhead)
      else if view.commitAtMarker != Some(m.commit) then WriteState(Some(MarkerCommitMismatch))
      else if m.count != obs.count then WriteState(Some(TripleCountMismatch))
      else if m.version < view.targetVersion then WriteState(None)
      else if m.version == view.targetVersion then AlreadyProjected
      else AcknowledgeBeyond(m.commit, m.version)
  }

  /** The marker is another stream's. */
  predicate OfAnother(view: View, t: Terms) {
    Read(t).Present? && Read(t).marker.key != view.key
  }

  /** The subject names a version the ledger has not reached, in a marker that reads or not. */
  predicate Ahead(view: View, t: Terms) {
    MaxRefVersion(t).Some? && MaxRefVersion(t).value > view.headVersion
  }

  datatype WriteMode = Conditional | Replace

  function ModeOf(rebuild: Option<Reason>): WriteMode {
    if rebuild.None? then Conditional else Replace
  }

  /** The observed marker is this stream's, within the ledger's history, and names the
      ledger's own commit at its version. */
  predicate Genuine(view: View, t: Terms) {
    var r := Read(t);
    r.Present? && r.marker.key == view.key && r.marker.version <= view.headVersion
    && view.commitAtMarker == Some(r.marker.commit)
  }

  /** A planned write puts an older version over a genuine newer one. */
  predicate Regresses(view: View, obs: Observation) {
    Decide(view, obs).WriteState? && Genuine(view, obs.terms)
    && Read(obs.terms).marker.version > view.targetVersion
  }

  /** What an operator must decide, and nothing else, is left alone: another stream's marker, or a
      version beyond the ledger's head. Everything else is acknowledged or written. */
  lemma LeavesOthersAndAheadAlone(view: View, obs: Observation)
    ensures Decide(view, obs).RecoveryRequired? <==> OfAnother(view, obs.terms) || Ahead(view, obs.terms)
    ensures Decide(view, obs) == RecoveryRequired(TargetConflict) <==> OfAnother(view, obs.terms)
  {
  }

  /** Why a rebuild is decided: content without a marker, data the ledger recorded and the target
      lost, an unreadable marker, a foreign commit or an edited graph. */
  lemma RebuildsExactlyWhatIsDamaged(view: View, obs: Observation)
    ensures Decide(view, obs) == WriteState(Some(TargetLost)) <==>
            obs.terms.body.NoMarker? && obs.count == 0 && view.recorded.Some?
    ensures Decide(view, obs) == WriteState(Some(UnmarkedContent)) <==> obs.terms.body.NoMarker? && obs.count > 0
    ensures Decide(view, obs) == WriteState(Some(MarkerMalformed)) <==>
            !Ahead(view, obs.terms) && !obs.terms.body.NoMarker? && (obs.terms.body.Well? ==> obs.terms.writeId.None?)
    ensures Decide(view, obs) == WriteState(Some(MarkerCommitMismatch)) <==>
            Read(obs.terms).Present? && !OfAnother(view, obs.terms) && !Ahead(view, obs.terms)
            && !Genuine(view, obs.terms)
    ensures Decide(view, obs) == WriteState(Some(TripleCountMismatch)) <==>
            Genuine(view, obs.terms) && Read(obs.terms).marker.count != obs.count
  {
  }

  /** Regression is possible in exactly one row of the table: the count comparison comes
      before the version comparison, so a newer genuine marker over an edited graph is
      replaced by the older work item. */
  lemma RegressesExactlyOnEditedNewerGraph(view: View, obs: Observation)
    ensures Regresses(view, obs) <==>
            Genuine(view, obs.terms)
            && Read(obs.terms).marker.version > view.targetVersion
            && Read(obs.terms).marker.count != obs.count
    ensures Regresses(view, obs) ==> Decide(view, obs) == WriteState(Some(TripleCountMismatch))
  {
  }

  /** A conditional write only ever meets an empty target or a genuine, unedited, older marker. */
  lemma ConditionalWriteFollowsAPredecessor(view: View, obs: Observation)
    requires Decide(view, obs) == WriteState(None)
    ensures || (Read(obs.terms).Absent? && obs.count == 0 && view.recorded.None?)
            || (Genuine(view, obs.terms) && Read(obs.terms).marker.version < view.targetVersion
                && Read(obs.terms).marker.count == obs.count)
  {
  }

  /** A step acknowledges without writing exactly when the target already holds a genuine,
      unedited state at or beyond the work item. */
  lemma AcknowledgesExactlyGenuineState(view: View, obs: Observation)
    ensures Decide(view, obs).AlreadyProjected? || Decide(view, obs).AcknowledgeBeyond? <==>
            Genuine(view, obs.terms) && Read(obs.terms).marker.count == obs.count
            && view.targetVersion <= Read(obs.terms).marker.version
    ensures Decide(view, obs).AcknowledgeBeyond? ==>
            Decide(view, obs).commit == Read(obs.terms).marker.commit
            && Decide(view, obs).version == Read(obs.terms).marker.version
  {
  }
}
