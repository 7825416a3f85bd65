/** A concrete run in which disabling a stream without a fence leaves a write in flight that
    can still take effect: one worker, one operator, nine steps. */
module ProjectorExample {
  import opened Basics
  import opened Projection
  import opened Projector
  import opened ProjectorProgress

  const KEY := StreamKey("ledger", "main")
  const CLAIM := ClaimId(KEY, 1)
  const OBS := Observation(Terms(NoMarker, None), 0)
  const WORK := Work("first", 1, 1)
  const WRITE := Project(WORK, Conditional, false)
  const ID := Minted(CLAIM, "worker", 0)

  function Start(): State {
    State(0, map[], map[KEY := Ref([], {})], map["kb" := Target(OBS.terms, 0, None)],
          map["kb" := [OBS.terms]], map[], map[])
  }
  function Accepted(): State {
    Start().(refs := Start().refs[KEY := Ref([] + ["first"], {} + {1})])
  }
  function Enabled(): State {
    Accepted().(rows := Accepted().rows[KEY := Row("kb", Active, None, None, 0, 0)])
  }
  function Leasing(): State {
    Enabled().(rows := Enabled().rows[KEY := Row("kb", Active, None, Some("worker"), 9, 1)],
               acts := Enabled().acts[CLAIM := Act("worker", false, Pending, None, Claimed)])
  }
  function FoundWork(): State { Moved(Leasing(), CLAIM, Working(WORK)) }
  function Looked(): State { Moved(FoundWork(), CLAIM, Observed(WORK, OBS, 1)) }
  function Decided(): State { Moved(Looked(), CLAIM, Planned(WRITE, OBS, 1, 1)) }
  function Permitted(): State { Moved(Decided(), CLAIM, Authorised(WRITE, OBS, 1, 1, ID)) }
  function InFlight(): State {
    Moved(Permitted(), CLAIM, Sent).(wire :=
      Permitted().wire[CLAIM := Request("kb", OBS, 1, 1, WRITE, ID, Marker(KEY, "first", 1, "", 0))])
  }
  function Cut(): State {
    InFlight().(rows := InFlight().rows[KEY := Row("kb", Disabled, None, None, 9, 1)])
  }

  lemma Opening()
    ensures Next(Start(), Accepted(), Accept(KEY, "first", true))
    ensures Next(Accepted(), Enabled(), Enable(KEY, "kb"))
  {
  }

  lemma Claiming()
    ensures Next(Enabled(), Leasing(), Claim(KEY, "worker", 9, Pending))
    ensures Next(Leasing(), FoundWork(), FindWork(CLAIM, WORK))
  {
    assert 1 in Enabled().refs[KEY].events;
    assert IsWork(Leasing().refs[KEY], Leasing().acts[CLAIM], WORK);
  }

  lemma Looking()
    ensures Next(FoundWork(), Looked(), Observe(CLAIM))
  {
  }

  lemma Deciding()
    ensures Next(Looked(), Decided(), Conclude(CLAIM))
  {
  }

  lemma Permitting()
    ensures Next(Decided(), Permitted(), Authorise(CLAIM, 0))
    ensures Next(Permitted(), InFlight(), Send(CLAIM, ""))
  {
  }

  lemma Cutting()
    ensures Next(InFlight(), Cut(), DisableUnfenced(KEY))
    ensures Poised(Cut(), CLAIM)
  {
  }

  ghost predicate Reachable(s: State) {
    exists ss: seq<State>, ts: seq<Step> :: Run(ss, ts) && ss[|ts|] == s
  }

  lemma Onward(s: State, s': State, step: Step)
    requires Reachable(s) && Next(s, s', step)
    ensures Reachable(s')
  {
    var ss: seq<State>, ts: seq<Step> :| Run(ss, ts) && ss[|ts|] == s;
    assert Run(ss + [s'], ts + [step]);
  }

  /** The worker's first write was sent before the operator disabled the stream; it is poised
      afterwards, so some continuation lands it on the disabled stream. */
  lemma UnfencedDisableCanLeaveAClaimPoised()
    ensures Reachable(InFlight()) && Next(InFlight(), Cut(), DisableUnfenced(KEY))
    ensures Poised(Cut(), CLAIM)
  {
    assert Run([Start()], []);
    Opening();
    Onward(Start(), Accepted(), Accept(KEY, "first", true));
    Onward(Accepted(), Enabled(), Enable(KEY, "kb"));
    Claiming();
    Onward(Enabled(), Leasing(), Claim(KEY, "worker", 9, Pending));
    Onward(Leasing(), FoundWork(), FindWork(CLAIM, WORK));
    Looking();
    Onward(FoundWork(), Looked(), Observe(CLAIM));
    Deciding();
    Onward(Looked(), Decided(), Conclude(CLAIM));
    Permitting();
    Onward(Decided(), Permitted(), Authorise(CLAIM, 0));
    Onward(Permitted(), InFlight(), Send(CLAIM, ""));
    Cutting();
  }
}
