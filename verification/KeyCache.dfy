/** The signing-key cache: concurrent callers, a monotone clock, one refresh in flight at a time, a
    minimum interval between attempts and a maximum key age. Each step is what happens between two
    points where a caller may be suspended, cancelled or overtaken. */
module KeyCache {
  import opened Basics

  type Caller = nat
  type Kid = string
  type Key = nat
  type Keys = map<Kid, Key>

  /** Where a caller of `key_for` stands; `since` is when its call began. */
  datatype Pc =
    | Idle
    | Looking(kid: Kid, since: nat)
    | Waiting(kid: Kid, since: nat)
    | Locked(kid: Kid, since: nat)
    | Timed(kid: Kid, since: nat, t: nat)
    | Ready(kid: Kid, since: nat, t: nat)
    | Fetching(kid: Kid, since: nat)
    | Fetched(kid: Kid, since: nat, keys: Keys)
    | Done(kid: Kid, since: nat, refreshed: bool)

  /** A fetch that began: the attempt time recorded for it and when it really began. */
  datatype Start = Start(at: nat, started: nat)

  datatype Load = Load(at: nat, keys: Keys)

  /** A key handed out: read at `readAt`, from load number `load`. */
  datatype Answer = Answer(kid: Kid, key: Key, since: nat, readAt: nat, load: nat)

  datatype State = State(now: nat, keys: Keys, loadedAt: Option<nat>, attemptedAt: Option<nat>, holder: Option<Caller>,
                         pcs: map<Caller, Pc>, attempts: seq<nat>, starts: seq<Start>, loads: seq<Load>,
                         answers: seq<Answer>)

  datatype Policy = Policy(minInterval: nat, maxAge: nat)

  function PcOf(s: State, c: Caller): Pc { if c in s.pcs then s.pcs[c] else Idle }

  predicate HoldsLock(pc: Pc) { pc.Locked? || pc.Timed? || pc.Ready? || pc.Fetching? || pc.Fetched? }

  /** An instant's distance from an earlier one; never negative. */
  function Since(now: nat, t: nat): nat { if now < t then 0 else now - t }

  predicate Fresh(p: Policy, s: State) { s.loadedAt.Some? && Since(s.now, s.loadedAt.value) < p.maxAge }

  function Move(s: State, c: Caller, pc: Pc): State { s.(pcs := s.pcs[c := pc]) }

  function Release(s: State, c: Caller, pc: Pc): State { s.(pcs := s.pcs[c := pc], holder := None) }

  /** Hand out the key the cache holds now. */
  function Give(s: State, c: Caller, kid: Kid, since: nat): State
    requires kid in s.keys && s.loads != []
  {
    s.(pcs := s.pcs[c := Idle], answers := s.answers + [Answer(kid, s.keys[kid], since, s.now, |s.loads| - 1)])
  }

  // ---- steps -----------------------------------------------------------------------------------------------

  datatype Step =
    | Tick(d: nat)
    | Call(c: Caller, kid: Kid)
    | Look(c: Caller)
    | Acquire(c: Caller)
    | ReadClock(c: Caller)
    | Decide(c: Caller)
    | Begin(c: Caller)
    | Fail(c: Caller)
    | Receive(c: Caller, keys: Keys)
    | Install(c: Caller)
    | Finish(c: Caller)
    | Cancel(c: Caller)

  ghost predicate Next(p: Policy, s: State, step: Step, s': State) {
    match step
    case Tick(d) => s' == s.(now := s.now + d)
    case Call(c, kid) => PcOf(s, c).Idle? && s' == Move(s, c, Looking(kid, s.now))
    case Look(c) =>
      var pc := PcOf(s, c);
      pc.Looking? &&
      if Fresh(p, s) && pc.kid in s.keys then s.loads != [] && s' == Give(s, c, pc.kid, pc.since)
      else s' == Move(s, c, Waiting(pc.kid, pc.since))
    case Acquire(c) =>
      var pc := PcOf(s, c);
      pc.Waiting? && s.holder.None? && s' == Move(s, c, Locked(pc.kid, pc.since)).(holder := Some(c))
    case ReadClock(c) =>
      var pc := PcOf(s, c);
      pc.Locked? && s' == Move(s, c, Timed(pc.kid, pc.since, s.now))
    case Decide(c) =>
      var pc := PcOf(s, c);
      pc.Timed? &&
      if s.attemptedAt.Some? && Since(pc.t, s.attemptedAt.value) < p.minInterval
        then s' == Release(s, c, Done(pc.kid, pc.since, false))
      else s' == Move(s, c, Ready(pc.kid, pc.since, pc.t)).(attemptedAt := Some(pc.t), attempts := s.attempts + [pc.t])
    case Begin(c) =>
      var pc := PcOf(s, c);
      pc.Ready? && s' == Move(s, c, Fetching(pc.kid, pc.since)).(starts := s.starts + [Start(pc.t, s.now)])
    case Fail(c) => PcOf(s, c).Fetching? && s' == Release(s, c, Idle)
    case Receive(c, keys) =>
      var pc := PcOf(s, c);
      pc.Fetching? && s' == Move(s, c, Fetched(pc.kid, pc.since, keys))
    case Install(c) =>
      var pc := PcOf(s, c);
      pc.Fetched? && s' == Release(s, c, Done(pc.kid, pc.since, true)).(keys := pc.keys, loadedAt := Some(s.now),
        loads := s.loads + [Load(s.now, pc.keys)])
    case Finish(c) =>
      var pc := PcOf(s, c);
      pc.Done? &&
      if (pc.refreshed || Fresh(p, s)) && pc.kid in s.keys then s.loads != [] && s' == Give(s, c, pc.kid, pc.since)
      else s' == Move(s, c, Idle)
    case Cancel(c) => s' == if s.holder == Some(c) then Release(s, c, Idle) else Move(s, c, Idle)
  }

  predicate Init(s: State) {
    s == State(s.now, map[], None, None, None, map[], [], [], [], [])
  }

  // ---- what every step keeps ----------------------------------------------------------------------------------

  predicate Apart(p: Policy, a: nat, b: nat) { a + p.minInterval <= b }

  predicate Spaced(p: Policy, ts: seq<nat>) {
    forall i :: 0 <= i < |ts| - 1 ==> Apart(p, ts[i], ts[i + 1])
  }

  predicate StartsApart(p: Policy, a: Start, b: Start) { Apart(p, a.at, b.at) }

  predicate SpacedStarts(p: Policy, ss: seq<Start>) {
    && (forall i :: 0 <= i < |ss| - 1 ==> StartsApart(p, ss[i], ss[i + 1]))
    && (forall i :: 0 <= i < |ss| ==> ss[i].at <= ss[i].started)
  }

  predicate Ordered(ls: seq<Load>) {
    forall i, j :: 0 <= i < j < |ls| ==> ls[i].at <= ls[j].at
  }

  /** The cache is the last load, loaded in the past. */
  predicate LoadsOk(s: State) {
    && Ordered(s.loads) && (forall i :: 0 <= i < |s.loads| ==> s.loads[i].at <= s.now)
    && (if s.loads == [] then s.loadedAt.None? && s.keys == map[]
        else s.loadedAt == Some(s.loads[|s.loads| - 1].at) && s.keys == s.loads[|s.loads| - 1].keys)
  }

  predicate AttemptsOk(p: Policy, s: State) {
    && Spaced(p, s.attempts) && SpacedStarts(p, s.starts)
    && (if s.attempts == [] then s.attemptedAt.None? && s.starts == []
        else s.attemptedAt == Some(s.attempts[|s.attempts| - 1]) && s.attempts[|s.attempts| - 1] <= s.now)
    && (s.starts != [] ==> s.starts[|s.starts| - 1].at <= s.attempts[|s.attempts| - 1])
  }

  /** A key came from a set loaded less than the maximum age ago, or during that same call. */
  predicate AnswerOk(p: Policy, s: State, a: Answer) {
    && a.load < |s.loads| && a.kid in s.loads[a.load].keys && a.key == s.loads[a.load].keys[a.kid]
    && a.since <= a.readAt <= s.now && s.loads[a.load].at <= a.readAt
    && (a.readAt - s.loads[a.load].at < p.maxAge || a.since <= s.loads[a.load].at)
  }

  ghost predicate AnswersOk(p: Policy, s: State) {
    forall a {:trigger AnswerOk(p, s, a)} :: a in s.answers ==> AnswerOk(p, s, a)
  }

  /** One caller's view: its times are past, and the lock is its own while it refreshes. */
  predicate CallerOk(p: Policy, s: State, c: Caller) {
    var pc := PcOf(s, c);
    && (HoldsLock(pc) <==> s.holder == Some(c))
    && (!pc.Idle? ==> pc.since <= s.now)
    && (pc.Timed? ==> pc.t <= s.now && (s.attempts != [] ==> s.attempts[|s.attempts| - 1] <= pc.t))
    && (pc.Ready? ==> s.attempts != [] && pc.t == s.attempts[|s.attempts| - 1])
    && (pc.Ready? && s.starts != [] ==> Apart(p, s.starts[|s.starts| - 1].at, pc.t))
    && (pc.Done? && pc.refreshed ==> s.loads != [] && pc.since <= s.loads[|s.loads| - 1].at)
  }

  ghost predicate CallersOk(p: Policy, s: State) {
    forall c: Caller {:trigger CallerOk(p, s, c)} :: CallerOk(p, s, c)
  }

  ghost predicate Inv(p: Policy, s: State) {
    LoadsOk(s) && AttemptsOk(p, s) && AnswersOk(p, s) && CallersOk(p, s)
  }

  lemma SpacedGrows(p: Policy, ts: seq<nat>, t: nat)
    requires Spaced(p, ts) && (ts != [] ==> Apart(p, ts[|ts| - 1], t))
    ensures Spaced(p, ts + [t])
  {
    forall i | 0 <= i < |ts + [t]| - 1 ensures Apart(p, (ts + [t])[i], (ts + [t])[i + 1]) {
      if i < |ts| - 1 { assert Apart(p, ts[i], ts[i + 1]); }
    }
  }

  lemma StartsGrow(p: Policy, ss: seq<Start>, t: Start)
    requires SpacedStarts(p, ss) && t.at <= t.started && (ss != [] ==> StartsApart(p, ss[|ss| - 1], t))
    ensures SpacedStarts(p, ss + [t])
  {
    forall i | 0 <= i < |ss + [t]| - 1 ensures StartsApart(p, (ss + [t])[i], (ss + [t])[i + 1]) {
      if i < |ss| - 1 { assert StartsApart(p, ss[i], ss[i + 1]); }
    }
  }

  function Actor(step: Step): Option<Caller> {
    match step case Tick(_) => None case _ => Some(step.c)
  }

  /** The steps that change the attempts, the fetches or the keys. */
  predicate Refreshing(step: Step) { step.Decide? || step.Begin? || step.Install? }

  lemma QuietStepsKeepTheLogs(p: Policy, s: State, step: Step, s': State)
    requires Next(p, s, step, s') && !Refreshing(step)
    ensures s'.attempts == s.attempts && s'.attemptedAt == s.attemptedAt && s'.starts == s.starts && s'.now >= s.now
    ensures s'.loads == s.loads && s'.loadedAt == s.loadedAt && s'.keys == s.keys
  {
  }

  lemma RefresherKeeps(p: Policy, s: State, step: Step, s': State)
    requires LoadsOk(s) && AttemptsOk(p, s) && Refreshing(step) && CallerOk(p, s, step.c) && Next(p, s, step, s')
    ensures CallerOk(p, s', step.c)
  {
  }

  lemma ActorKeeps(p: Policy, s: State, step: Step, s': State)
    requires LoadsOk(s) && AttemptsOk(p, s) && Actor(step).Some? && CallerOk(p, s, step.c) && Next(p, s, step, s')
    ensures CallerOk(p, s', step.c)
  {
    if Refreshing(step) { RefresherKeeps(p, s, step, s'); } else { QuietStepsKeepTheLogs(p, s, step, s'); }
  }

  lemma OthersStay(p: Policy, s: State, step: Step, s': State, c: Caller)
    requires Next(p, s, step, s') && (Actor(step).Some? ==> c != step.c)
    ensures PcOf(s', c) == PcOf(s, c)
  {
  }

  lemma OtherLocksStay(p: Policy, s: State, step: Step, s': State, c: Caller)
    requires Next(p, s, step, s') && CallerOk(p, s, c) && (Actor(step).Some? ==> c != step.c && CallerOk(p, s, step.c))
    ensures s'.holder == Some(c) <==> s.holder == Some(c)
  {
  }

  /** A step of one caller leaves the others as they were; only the lock's holder changes the
      attempts. */
  lemma OthersKeep(p: Policy, s: State, step: Step, s': State, c: Caller)
    requires LoadsOk(s) && AttemptsOk(p, s) && CallerOk(p, s, c) && Next(p, s, step, s')
    requires Actor(step).Some? ==> c != step.c && CallerOk(p, s, step.c)
    ensures CallerOk(p, s', c)
  {
    OthersStay(p, s, step, s', c);
    OtherLocksStay(p, s, step, s', c);
    if Refreshing(step) {
      RefreshKeepsOthers(p, s, step, s', c);
    } else {
      QuietStepsKeepTheLogs(p, s, step, s');
    }
  }

  /** A caller that does not hold the lock does not depend on the attempts. */
  lemma RefreshKeepsOthers(p: Policy, s: State, step: Step, s': State, c: Caller)
    requires LoadsOk(s) && CallerOk(p, s, c) && Refreshing(step) && Next(p, s, step, s')
    requires c != step.c && CallerOk(p, s, step.c) && PcOf(s', c) == PcOf(s, c)
    requires s'.holder == Some(c) <==> s.holder == Some(c)
    ensures CallerOk(p, s', c)
  {
    assert s.holder == Some(step.c) && !HoldsLock(PcOf(s, c));
  }

  lemma CallersKeep(p: Policy, s: State, step: Step, s': State)
    requires Inv(p, s) && Next(p, s, step, s')
    ensures CallersOk(p, s')
  {
    forall c: Caller ensures CallerOk(p, s', c) {
      assert CallerOk(p, s, c);
      if Actor(step) == Some(c) {
        ActorKeeps(p, s, step, s');
      } else {
        if Actor(step).Some? { assert CallerOk(p, s, step.c); }
        OthersKeep(p, s, step, s', c);
      }
    }
  }

  lemma LoadsKeep(p: Policy, s: State, step: Step, s': State)
    requires Inv(p, s) && Next(p, s, step, s')
    ensures LoadsOk(s')
  {
    if !Refreshing(step) { QuietStepsKeepTheLogs(p, s, step, s'); }
  }

  lemma AttemptsKeep(p: Policy, s: State, step: Step, s': State)
    requires Inv(p, s) && Next(p, s, step, s')
    ensures AttemptsOk(p, s')
  {
    if !Refreshing(step) { QuietStepsKeepTheLogs(p, s, step, s'); }
    if step.Decide? {
      assert CallerOk(p, s, step.c);
      if s'.attempts != s.attempts { SpacedGrows(p, s.attempts, PcOf(s, step.c).t); }
    }
    if step.Begin? {
      assert CallerOk(p, s, step.c);
      StartsGrow(p, s.starts, Start(PcOf(s, step.c).t, s.now));
    }
  }

  lemma AnswersKeep(p: Policy, s: State, step: Step, s': State)
    requires Inv(p, s) && Next(p, s, step, s')
    ensures AnswersOk(p, s')
  {
    forall a | a in s'.answers ensures AnswerOk(p, s', a) {
      if a in s.answers {
        assert AnswerOk(p, s, a);
      } else {
        assert CallerOk(p, s, step.c);
      }
    }
  }

  lemma NextKeeps(p: Policy, s: State, step: Step, s': State)
    requires Inv(p, s) && Next(p, s, step, s')
    ensures Inv(p, s')
  {
    CallersKeep(p, s, step, s');
    LoadsKeep(p, s, step, s');
    AttemptsKeep(p, s, step, s');
    AnswersKeep(p, s, step, s');
  }

  // ---- over every run -----------------------------------------------------------------------------------------

  ghost predicate Run(p: Policy, states: seq<State>, steps: seq<Step>) {
    && |states| == |steps| + 1 && Init(states[0])
    && forall i :: 0 <= i < |steps| ==> Next(p, states[i], steps[i], states[i + 1])
  }

  lemma {:induction false} RunHolds(p: Policy, states: seq<State>, steps: seq<Step>, k: nat)
    requires Run(p, states, steps) && k < |states|
    ensures Inv(p, states[k])
  {
    if k > 0 {
      RunHolds(p, states, steps, k - 1);
      assert Next(p, states[k - 1], steps[k - 1], states[k]);
      NextKeeps(p, states[k - 1], steps[k - 1], states[k]);
    }
  }

  /** In every run, every key handed out came from a set loaded less than the maximum age before it
      was read, or during that same call. */
  lemma KeysAreFresh(p: Policy, states: seq<State>, steps: seq<Step>, k: nat, a: Answer)
    requires Run(p, states, steps) && k < |states| && a in states[k].answers
    ensures AnswerOk(p, states[k], a)
  {
    RunHolds(p, states, steps, k);
  }

  /** In every run, recorded attempts lie at least the minimum interval apart, failures and
      cancellations included, and at most one caller is refreshing. */
  lemma AttemptsAreSpaced(p: Policy, states: seq<State>, steps: seq<Step>, k: nat, c: Caller, d: Caller)
    requires Run(p, states, steps) && k < |states|
    ensures Spaced(p, states[k].attempts)
    ensures HoldsLock(PcOf(states[k], c)) && HoldsLock(PcOf(states[k], d)) ==> c == d
  {
    RunHolds(p, states, steps, k);
    assert CallerOk(p, states[k], c) && CallerOk(p, states[k], d);
  }

  /** Fetches begin at least the minimum interval apart, less the time the earlier one was held up
      between reading the clock and beginning. */
  lemma FetchesAreSpaced(p: Policy, states: seq<State>, steps: seq<Step>, k: nat, i: nat)
    requires Run(p, states, steps) && k < |states| && i + 1 < |states[k].starts|
    ensures
      var a, b := states[k].starts[i], states[k].starts[i + 1];
      a.started + p.minInterval <= b.started + (a.started - a.at)
  {
    RunHolds(p, states, steps, k);
    assert StartsApart(p, states[k].starts[i], states[k].starts[i + 1]);
  }

  // ---- the bound is tight ---------------------------------------------------------------------------------------

  ghost predicate Reachable(p: Policy, s: State) {
    exists states, steps :: Run(p, states, steps) && states[|states| - 1] == s
  }

  lemma Onward(p: Policy, s: State, step: Step, s': State)
    requires Reachable(p, s) && Next(p, s, step, s')
    ensures Reachable(p, s')
  {
    var states, steps :| Run(p, states, steps) && states[|states| - 1] == s;
    var states', steps' := states + [s'], steps + [step];
    forall i | 0 <= i < |steps'| ensures Next(p, states'[i], steps'[i], states'[i + 1]) {
      if i < |steps| { assert Next(p, states[i], steps[i], states[i + 1]); }
    }
    assert Run(p, states', steps') && states'[|states'| - 1] == s';
  }

  lemma Starting(p: Policy) returns (s: State)
    ensures Reachable(p, s) && s == State(0, map[], None, None, None, map[], [], [], [], [])
  {
    s := State(0, map[], None, None, None, map[], [], [], [], []);
    assert Run(p, [s], []);
  }

  /** A caller takes the lock, reads the clock and is allowed to fetch. */
  lemma Allowed(p: Policy, s: State, c: Caller, kid: Kid) returns (s': State)
    requires Reachable(p, s) && PcOf(s, c).Idle? && s.holder.None? && s.loadedAt.None?
    requires s.attemptedAt.None? || Since(s.now, s.attemptedAt.value) >= p.minInterval
    ensures Reachable(p, s') && PcOf(s', c) == Ready(kid, s.now, s.now)
    ensures s' == s.(pcs := s'.pcs, holder := Some(c), attemptedAt := Some(s.now), attempts := s.attempts + [s.now])
  {
    var a := Move(s, c, Looking(kid, s.now));
    Onward(p, s, Call(c, kid), a);
    var b := Move(a, c, Waiting(kid, s.now));
    Onward(p, a, Look(c), b);
    var d := Move(b, c, Locked(kid, s.now)).(holder := Some(c));
    Onward(p, b, Acquire(c), d);
    var e := Move(d, c, Timed(kid, s.now, s.now));
    Onward(p, d, ReadClock(c), e);
    s' := Move(e, c, Ready(kid, s.now, s.now)).(attemptedAt := Some(s.now), attempts := s.attempts + [s.now]);
    Onward(p, e, Decide(c), s');
  }

  /** It is held up for `delay`, begins, and fails. */
  lemma Held(p: Policy, s: State, c: Caller, delay: nat) returns (s': State)
    requires Reachable(p, s) && PcOf(s, c).Ready? && s.holder == Some(c)
    ensures Reachable(p, s') && PcOf(s', c).Idle?
    ensures s' == s.(now := s.now + delay, pcs := s'.pcs, holder := None,
                     starts := s.starts + [Start(PcOf(s, c).t, s.now + delay)])
  {
    var pc := PcOf(s, c);
    var a := s.(now := s.now + delay);
    Onward(p, s, Tick(delay), a);
    var b := Move(a, c, Fetching(pc.kid, pc.since)).(starts := a.starts + [Start(pc.t, a.now)]);
    Onward(p, a, Begin(c), b);
    s' := Release(b, c, Idle);
    Onward(p, b, Fail(c), s');
  }

  /** For every policy and every delay up to the minimum interval there is a run in which the next
      fetch begins that much less than the interval after the first: only recorded attempts are
      spaced, not the fetches themselves. */
  lemma ADelayedFetchIsNotSpaced(p: Policy, delay: nat) returns (s: State)
    requires delay <= p.minInterval
    ensures Reachable(p, s) && |s.starts| == 2 && s.starts[1].started - s.starts[0].started == p.minInterval - delay
  {
    var a := Starting(p);
    var b := Allowed(p, a, 1, "k");
    var d := Held(p, b, 1, delay);
    var e := d.(now := d.now + (p.minInterval - delay));
    Onward(p, d, Tick(p.minInterval - delay), e);
    var f := Allowed(p, e, 1, "k");
    s := Held(p, f, 1, 0);
  }

  // ---- one call on its own --------------------------------------------------------------------------------------

  predicate Throttled(p: Policy, s: State) {
    s.attemptedAt.Some? && Since(s.now, s.attemptedAt.value) < p.minInterval
  }

  /** The key cached or else the key offered by the source, if the call may ask it. */
  function Found(p: Policy, s: State, kid: Kid, offered: Option<Keys>): Option<Key> {
    if Fresh(p, s) && kid in s.keys then Some(s.keys[kid])
    else if !Throttled(p, s) && offered.Some? && kid in offered.value then Some(offered.value[kid])
    else None
  }

  /** Whether the call asks the source. */
  predicate Asks(p: Policy, s: State, kid: Kid) { !(Fresh(p, s) && kid in s.keys) && !Throttled(p, s) }

  /** The continuation from `s` ends in `e`. */
  ghost predicate Leads(p: Policy, s: State, e: State) {
    exists states, steps :: Chain(p, states, steps) && states[0] == s && states[|steps|] == e
  }

  ghost predicate Chain(p: Policy, states: seq<State>, steps: seq<Step>) {
    |states| == |steps| + 1 && forall i :: 0 <= i < |steps| ==> Next(p, states[i], steps[i], states[i + 1])
  }

  lemma Here(p: Policy, s: State)
    ensures Leads(p, s, s)
  {
    assert Chain(p, [s], []) && [s][0] == s;
  }

  lemma Then(p: Policy, s: State, m: State, step: Step, e: State)
    requires Leads(p, s, m) && Next(p, m, step, e)
    ensures Leads(p, s, e)
  {
    var states, steps :| Chain(p, states, steps) && states[0] == s && states[|steps|] == m;
    var states', steps' := states + [e], steps + [step];
    forall i | 0 <= i < |steps'| ensures Next(p, states'[i], steps'[i], states'[i + 1]) {
      if i < |steps| { assert Next(p, states[i], steps[i], states[i + 1]); }
    }
    assert Chain(p, states', steps') && states'[|steps'|] == e;
  }

  /** What a finished call leaves: the caller idle, the lock free, and its answer if there is one. */
  predicate Finished(p: Policy, s: State, e: State, c: Caller, kid: Kid, offered: Option<Keys>) {
    && PcOf(e, c).Idle? && e.holder.None? && e.now == s.now
    && e.attempts == s.attempts + (if Asks(p, s, kid) then [s.now] else [])
    && |e.loads| == |s.loads| + (if Asks(p, s, kid) && offered.Some? then 1 else 0)
    && (match Found(p, s, kid, offered)
        case None => e.answers == s.answers
        case Some(key) => |e.loads| > 0 && e.answers == s.answers + [Answer(kid, key, s.now, s.now, |e.loads| - 1)])
  }

  lemma LookAndWait(p: Policy, s: State, c: Caller, kid: Kid) returns (e: State)
    requires Inv(p, s) && PcOf(s, c).Idle? && s.holder.None? && !(Fresh(p, s) && kid in s.keys)
    ensures Leads(p, s, e) && e == s.(pcs := e.pcs, holder := Some(c)) && PcOf(e, c) == Timed(kid, s.now, s.now)
  {
    Here(p, s);
    var a := Move(s, c, Looking(kid, s.now));
    Then(p, s, s, Call(c, kid), a);
    var b := Move(a, c, Waiting(kid, s.now));
    Then(p, s, a, Look(c), b);
    var d := Move(b, c, Locked(kid, s.now)).(holder := Some(c));
    Then(p, s, b, Acquire(c), d);
    e := Move(d, c, Timed(kid, s.now, s.now));
    Then(p, s, d, ReadClock(c), e);
  }

  lemma CachedCall(p: Policy, s: State, c: Caller, kid: Kid, offered: Option<Keys>) returns (e: State)
    requires Inv(p, s) && PcOf(s, c).Idle? && s.holder.None? && Fresh(p, s) && kid in s.keys
    ensures Leads(p, s, e) && Finished(p, s, e, c, kid, offered)
  {
    Here(p, s);
    var a := Move(s, c, Looking(kid, s.now));
    Then(p, s, s, Call(c, kid), a);
    e := Give(a, c, kid, s.now);
    Then(p, s, a, Look(c), e);
  }

  lemma ThrottledCall(p: Policy, s: State, c: Caller, kid: Kid, offered: Option<Keys>) returns (e: State)
    requires Inv(p, s) && PcOf(s, c).Idle? && s.holder.None? && !(Fresh(p, s) && kid in s.keys) && Throttled(p, s)
    ensures Leads(p, s, e) && Finished(p, s, e, c, kid, offered)
  {
    var a := LookAndWait(p, s, c, kid);
    var b := Release(a, c, Done(kid, s.now, false));
    Then(p, s, a, Decide(c), b);
    e := Move(b, c, Idle);
    Then(p, s, b, Finish(c), e);
  }

  lemma AskingCall(p: Policy, s: State, c: Caller, kid: Kid, offered: Option<Keys>) returns (e: State)
    requires Inv(p, s) && PcOf(s, c).Idle? && s.holder.None? && Asks(p, s, kid)
    ensures Leads(p, s, e) && Finished(p, s, e, c, kid, offered)
  {
    var a := LookAndWait(p, s, c, kid);
    var b := Move(a, c, Ready(kid, s.now, s.now)).(attemptedAt := Some(s.now), attempts := s.attempts + [s.now]);
    Then(p, s, a, Decide(c), b);
    var d := Move(b, c, Fetching(kid, s.now)).(starts := b.starts + [Start(s.now, s.now)]);
    Then(p, s, b, Begin(c), d);
    if offered.None? {
      e := Release(d, c, Idle);
      Then(p, s, d, Fail(c), e);
    } else {
      e := Loading(p, s, d, c, kid, offered.value);
    }
  }

  lemma Loading(p: Policy, s: State, d: State, c: Caller, kid: Kid, keys: Keys) returns (e: State)
    requires Leads(p, s, d) && PcOf(d, c) == Fetching(kid, s.now) && d.now == s.now
    ensures Leads(p, s, e) && PcOf(e, c).Idle? && e.holder.None? && e.now == s.now && e.attempts == d.attempts
    ensures |e.loads| == |d.loads| + 1
    ensures e.answers ==
      d.answers + if kid in keys then [Answer(kid, keys[kid], s.now, s.now, |d.loads|)] else []
  {
    var f := Move(d, c, Fetched(kid, s.now, keys));
    Then(p, s, d, Receive(c, keys), f);
    var g := Release(f, c, Done(kid, s.now, true)).(keys := keys, loadedAt := Some(s.now),
                                                   loads := f.loads + [Load(s.now, keys)]);
    Then(p, s, f, Install(c), g);
    e := if kid in keys then Give(g, c, kid, s.now) else Move(g, c, Idle);
    Then(p, s, g, Finish(c), e);
  }

  /** From every reachable state with a free lock, an idle caller that runs on its own is answered from
      a fresh cache without a fetch, else from what the source offers unless throttled, and otherwise
      not at all: a stale cache is never used, and the source is asked at most once. */
  lemma ACallIsAnswered(p: Policy, states: seq<State>, steps: seq<Step>, k: nat, c: Caller, kid: Kid,
                        offered: Option<Keys>)
    returns (e: State)
    requires Run(p, states, steps) && k < |states| && PcOf(states[k], c).Idle? && states[k].holder.None?
    ensures Leads(p, states[k], e) && Finished(p, states[k], e, c, kid, offered)
  {
    var s := states[k];
    RunHolds(p, states, steps, k);
    if Fresh(p, s) && kid in s.keys {
      e := CachedCall(p, s, c, kid, offered);
    } else if Throttled(p, s) {
      e := ThrottledCall(p, s, c, kid, offered);
    } else {
      e := AskingCall(p, s, c, kid, offered);
    }
  }
}
