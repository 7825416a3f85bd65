/** A run in which an operator rebuild takes effect over a later marker of the ledger's own. The marker
    was there before the first stream was enabled, and the ledger reached its version only after the
    rebuild was planned. */
module RegressionExample {
  import opened Basics
  import opened Projection
  import opened Projector
  import opened ProjectorRebuild
  import opened ProjectorExample

  const MARK := Marker(KEY, "c2", 2, "", 5)
  const SIGHT := Observation(Terms(Well(MARK), Some(Foreign("restored"))), 5)
  const STALE := Work("c1", 1, 1)
  const REPLACE := Project(STALE, Replace, true)
  const OLDER := Marker(KEY, "c1", 1, "", 0)

  function Restored(): State {
    State(0, map[], map[KEY := Ref(["c1"], {1})], map["kb" := Target(SIGHT.terms, 5, None)],
          map["kb" := [SIGHT.terms]], map[], map[])
  }
  function Open(): State { Restored().(rows := Restored().rows[KEY := Row("kb", Active, None, None, 0, 0)]) }
  function Lease(): State {
    Open().(rows := Open().rows[KEY := Row("kb", Active, None, Some("worker"), 9, 1)],
            acts := Open().acts[CLAIM := Act("worker", false, Head, None, Claimed)])
  }
  function Found(): State { Moved(Lease(), CLAIM, Working(STALE)) }
  function Seen(): State { Moved(Found(), CLAIM, Observed(STALE, SIGHT, 1)) }
  function Forced(): State { Moved(Seen(), CLAIM, Planned(REPLACE, SIGHT, 1, 1)) }
  function Caught(): State {
    Forced().(refs := Forced().refs[KEY := Ref(["c1"] + ["c2"], {1} + {2})])
  }
  function Allowed(): State { Moved(Caught(), CLAIM, Authorised(REPLACE, SIGHT, 1, 1, ID)) }
  function Flown(): State {
    Moved(Allowed(), CLAIM, Sent).(wire :=
      Allowed().wire[CLAIM := Request("kb", SIGHT, 1, 1, REPLACE, ID, OLDER)])
  }
  function Landed(): State {
    var t := Target(Terms(Well(OLDER), Some(ID)), 0, Some("c1"));
    Flown().(targets := Flown().targets["kb" := t], log := Flown().log["kb" := Flown().log["kb"] + [t.terms]])
  }

  lemma LeaseIsReached()
    ensures Reachable(Lease())
  {
    assert Run([Restored()], []);
    Onward(Restored(), Open(), Enable(KEY, "kb"));
    Onward(Open(), Lease(), Claim(KEY, "worker", 9, Head));
  }

  lemma PlanIsReached()
    ensures Reachable(Forced())
  {
    LeaseIsReached();
    assert IsWork(Lease().refs[KEY], Lease().acts[CLAIM], STALE);
    Onward(Lease(), Found(), FindWork(CLAIM, STALE));
    Onward(Found(), Seen(), Observe(CLAIM));
    assert NextConclude(Seen(), Forced(), CLAIM);
    Onward(Seen(), Forced(), Conclude(CLAIM));
  }

  lemma RequestIsReached()
    ensures Reachable(Flown())
  {
    PlanIsReached();
    assert |Forced().refs[KEY].commits| + 1 == 2;
    Onward(Forced(), Caught(), Accept(KEY, "c2", true));
    Onward(Caught(), Allowed(), Authorise(CLAIM, 0));
    Onward(Allowed(), Flown(), Send(CLAIM, ""));
  }

  /** The rebuild of "c1" is planned while the ledger holds nothing else; then the ledger accepts "c2",
      which is what the marker names; the write of version 1 replaces version 2. */
  lemma ForcedRebuildReplacesALaterMarker()
    ensures Reachable(Flown()) && Next(Flown(), Landed(), Land(CLAIM, 0)) && MeetsLater(Flown(), CLAIM)
    ensures Flown().targets["kb"].terms.body == Well(MARK) && Landed().targets["kb"].terms.body == Well(OLDER)
  {
    RequestIsReached();
    WriteTakesEffect();
  }

  lemma WriteTakesEffect()
    ensures NextLand(Flown(), Landed(), CLAIM, 0)
    ensures Flown().targets["kb"].terms.body == Well(MARK) && Landed().targets["kb"].terms.body == Well(OLDER)
  {
    assert Applied(Flown().targets["kb"], Flown().wire[CLAIM], 0) == Landed().targets["kb"];
  }
}
