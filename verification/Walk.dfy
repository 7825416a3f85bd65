/** The bounded commit walk of `crates/ledger-dag`: an iterative depth-first search with
    white/grey/black colours over parents that a provider hands out in windows. The windows are
    prefetched answers only, so unless the clock or the provider ends it early the walk's answer is a
    function of the parent table. */
module Walk {
  import opened Basics
  import opened Dag

  // ---- the simple form --------------------------------------------------------------------

  /** Depth-first preorder: follow each commit's parents in order, skip what was seen. */
  function Visit<C(!new,==)>(p: Parents<C>, todo: seq<C>, seen: seq<C>): seq<C>
    decreases p.Keys - Commits(seen), |todo|
  {
    if todo == [] then seen
    else if todo[0] in seen || todo[0] !in p then Visit(p, todo[1..], seen)
    else
      assert todo[0] in p.Keys - Commits(seen) && todo[0] !in p.Keys - Commits(seen + [todo[0]]);
      Visit(p, p[todo[0]] + todo[1..], seen + [todo[0]])
  }

  function Preorder<C(!new,==)>(p: Parents<C>, head: C): seq<C> {
    Visit(p, [head], [])
  }

  // ---- outcomes ---------------------------------------------------------------------------

  datatype Outcome<C> =
    | Hit
    | Complete
    | UnknownCommit(id: C)
    | Cycle(id: C)
    | VisitLimit(visited: nat)
    | Deadline
    | ProviderFailed

  predicate Interrupted<C>(r: Outcome<C>) {
    r.Deadline? || r.ProviderFailed?
  }

  /** What the walk meets outside: by call, the provider's window and whether the call fails; by
      reading of the clock, whether the deadline has passed. */
  datatype Outside<!C> = Outside(
    window: (C, nat, nat) -> seq<(C, seq<C>)>,
    fails: nat -> bool,
    late: nat -> bool)

  ghost predicate AllReachable<C(!new)>(p: Parents<C>, head: C, s: set<C>) {
    forall c :: c in s ==> Reaches(p, head, c)
  }

  /** At least `max + 1` distinct commits are reachable. */
  ghost predicate TooMany<C(!new)>(p: Parents<C>, head: C, max: nat) {
    exists s :: |s| == max + 1 && AllReachable(p, head, s)
  }

  /** What an outcome says about the parent table, whatever the windows were, or about the outside. */
  ghost predicate Truthful<C(!new)>(p: Parents<C>, out: Outside<C>, head: C, goal: set<C>, max: nat, r: Outcome<C>) {
    match r
    case Hit => exists c :: c in goal && c in p && Reaches(p, head, c)
    case Complete =>
      && Sound(p, head) && |ReachSet(p, head)| <= max
      && (forall c :: c in goal ==> !Reaches(p, head, c))
    case UnknownCommit(c) => Reaches(p, head, c) && c !in p
    case Cycle(c) => Reaches(p, head, c) && ReachesProperly(p, c, c)
    case VisitLimit(visited) => visited == max && TooMany(p, head, max)
    case Deadline => exists n: nat :: out.late(n)
    case ProviderFailed => exists n: nat :: out.fails(n)
  }

  /** A sound history within the visit limit. */
  ghost predicate Bounded<C(!new)>(p: Parents<C>, head: C, max: nat) {
    Sound(p, head) && |ReachSet(p, head)| <= max
  }

  lemma TooManyIsLarge<C(!new)>(p: Parents<C>, head: C, max: nat)
    requires TooMany(p, head, max)
    ensures |ReachSet(p, head)| > max
  {
    var s :| |s| == max + 1 && AllReachable(p, head, s);
    assert forall c :: c in s ==> c in ReachSet(p, head);
    SubsetIsNoLarger(s, ReachSet(p, head));
  }

  lemma SubsetIsNoLarger<C(!new)>(a: set<C>, b: set<C>)
    requires a <= b
    ensures |a| <= |b|
  {
    assert b == a + (b - a);
  }

  /** A walk without a goal that is not interrupted succeeds exactly on a sound history within the
      visit limit. */
  lemma CompletesExactlyWhenSoundAndBounded<C(!new)>(p: Parents<C>, out: Outside<C>, head: C, max: nat,
                                                     r: Outcome<C>)
    requires Truthful(p, out, head, {}, max, r)
    ensures r.Complete? <==> Bounded(p, head, max) && !Interrupted(r)
  {
    if r.VisitLimit? { TooManyIsLarge(p, head, max); }
  }

  /** With a goal, the answer is whether the goal is reachable, unless the history is damaged or
      too large or the walk is interrupted. */
  lemma SearchAnswersReachability<C(!new)>(p: Parents<C>, out: Outside<C>, head: C, goal: C, max: nat,
                                           r: Outcome<C>)
    requires Truthful(p, out, head, {goal}, max, r)
    ensures r.Hit? ==> Reaches(p, head, goal)
    ensures r.Complete? ==> !Reaches(p, head, goal)
    ensures Bounded(p, head, max) && !Interrupted(r) ==>
      r == if Reaches(p, head, goal) then Hit else Complete
  {
    if r.VisitLimit? { TooManyIsLarge(p, head, max); }
  }

  // ---- the search state -------------------------------------------------------------------

  datatype Colour = Grey | Black
  datatype Frame<C> = Frame(id: C, parents: seq<C>, next: nat)
  datatype Stack<C> = Empty | Push(top: Frame<C>, below: Stack<C>)
  datatype Trace<C> = Trace(stack: Stack<C>, order: seq<C>, finished: seq<C>)

  function OnPath<C(!new,==)>(stack: Stack<C>): set<C> {
    match stack
    case Empty => {}
    case Push(f, below) => {f.id} + OnPath(below)
  }

  predicate Distinct<C(!new,==)>(stack: Stack<C>) {
    stack.Push? ==> stack.top.id !in OnPath(stack.below) && Distinct(stack.below)
  }

  /** What is still to be visited, nearest first. */
  function Remaining<C(!new,==)>(stack: Stack<C>): seq<C> {
    match stack
    case Empty => []
    case Push(f, below) => (if f.next <= |f.parents| then f.parents[f.next..] else []) + Remaining(below)
  }

  predicate Pending<C(!new,==)>(stack: Stack<C>) {
    stack.Push? && stack.top.next < |stack.top.parents|
  }

  function Next<C(!new,==)>(stack: Stack<C>): C
    requires Pending(stack)
  {
    stack.top.parents[stack.top.next]
  }

  function Advance<C(!new,==)>(stack: Stack<C>): Stack<C>
    requires stack.Push?
  {
    Push(stack.top.(next := stack.top.next + 1), stack.below)
  }

  /** A frame's parents before its cursor are finished, except the one being visited above it. */
  predicate FrameOk<C(!new,==)>(p: Parents<C>, finished: seq<C>, f: Frame<C>, above: Option<C>) {
    && f.id in p && f.parents == p[f.id] && f.next <= |f.parents|
    && (above.Some? ==> f.next >= 1 && f.parents[f.next - 1] == above.value)
    && (forall k :: 0 <= k < (if above.Some? then f.next - 1 else f.next) ==> f.parents[k] in finished)
  }

  predicate FramesOk<C(!new,==)>(p: Parents<C>, finished: seq<C>, stack: Stack<C>, above: Option<C>) {
    stack.Push? ==> FrameOk(p, finished, stack.top, above) && FramesOk(p, finished, stack.below, Some(stack.top.id))
  }

  /** Each entered commit is either finished or on the path, once. */
  predicate Split<C(!new,==)>(t: Trace<C>) {
    && NoDuplicates(t.order) && NoDuplicates(t.finished) && Distinct(t.stack)
    && Commits(t.finished) !! OnPath(t.stack)
    && Commits(t.order) == Commits(t.finished) + OnPath(t.stack)
  }

  ghost predicate Grounded<C(!new)>(p: Parents<C>, start: C, order: seq<C>) {
    start in order && forall c :: c in order ==> c in p && Reaches(p, start, c)
  }

  ghost predicate TraceOk<C(!new)>(p: Parents<C>, start: C, t: Trace<C>) {
    && FramesOk(p, t.finished, t.stack, None)
    && Split(t)
    && Grounded(p, start, t.order)
    && Finished(p, t.finished)
    && Visit(p, Remaining(t.stack), t.order) == Preorder(p, start)
  }

  lemma StartOk<C(!new)>(p: Parents<C>, start: C)
    requires start in p
    ensures TraceOk(p, start, Trace(Push(Frame(start, p[start], 0), Empty), [start], []))
  {
    var stack := Push(Frame(start, p[start], 0), Empty);
    ReachesSelf(p, start);
    assert Commits<C>([]) == {} && Commits([start]) == {start} && OnPath(stack) == {start};
    assert Remaining(stack) == p[start] + [start][1..] by { assert Remaining(stack.below) == []; }
    assert Visit(p, [start], []) == Visit(p, p[start] + [start][1..], [start]) by { assert [] + [start] == [start]; }
  }

  lemma AdvanceRemaining<C(!new)>(stack: Stack<C>)
    requires Pending(stack)
    ensures Remaining(stack) == [Next(stack)] + Remaining(Advance(stack))
  {
    var f := stack.top;
    assert f.parents[f.next..] == [f.parents[f.next]] + f.parents[f.next + 1..];
  }

  lemma SkipKeeps<C(!new)>(p: Parents<C>, start: C, t: Trace<C>)
    requires TraceOk(p, start, t) && Pending(t.stack) && Next(t.stack) in t.finished
    ensures TraceOk(p, start, t.(stack := Advance(t.stack)))
  {
    AdvanceRemaining(t.stack);
    assert Next(t.stack) in Commits(t.order);
    assert Remaining(t.stack)[1..] == Remaining(Advance(t.stack));
  }

  function Descend<C(!new,==)>(p: Parents<C>, t: Trace<C>): Trace<C>
    requires Pending(t.stack) && Next(t.stack) in p
  {
    var c := Next(t.stack);
    Trace(Push(Frame(c, p[c], 0), Advance(t.stack)), t.order + [c], t.finished)
  }

  lemma DescendKeeps<C(!new)>(p: Parents<C>, start: C, t: Trace<C>)
    requires TraceOk(p, start, t) && Pending(t.stack) && Next(t.stack) in p && Next(t.stack) !in t.order
    ensures TraceOk(p, start, Descend(p, t))
  {
    var c := Next(t.stack);
    AdvanceRemaining(t.stack);
    assert Remaining(t.stack)[1..] == Remaining(Advance(t.stack));
    assert Commits(t.order + [c]) == Commits(t.order) + {c};
    NextIsReachable(p, start, t);
    assert c !in Commits(t.order);
  }

  lemma NextIsReachable<C(!new)>(p: Parents<C>, start: C, t: Trace<C>)
    requires TraceOk(p, start, t) && Pending(t.stack)
    ensures Reaches(p, start, Next(t.stack))
  {
    var f := t.stack.top;
    assert f.id in Commits(t.order);
    ReachesByEdge(p, f.id, Next(t.stack));
    ReachesTrans(p, start, f.id, Next(t.stack));
  }

  lemma NextIsNew<C(!new)>(p: Parents<C>, t: Trace<C>)
    requires Split(t) && Pending(t.stack) && Next(t.stack) !in t.order
    ensures Next(t.stack) !in t.finished
  {
    assert Next(t.stack) !in Commits(t.order);
  }

  function Leave<C(!new,==)>(t: Trace<C>): Trace<C>
    requires t.stack.Push?
  {
    Trace(t.stack.below, t.order, t.finished + [t.stack.top.id])
  }

  lemma {:induction false} FramesMonotone<C(!new)>(p: Parents<C>, less: seq<C>, more: seq<C>, stack: Stack<C>,
                                                   above: Option<C>)
    requires FramesOk(p, less, stack, above) && forall c :: c in less ==> c in more
    ensures FramesOk(p, more, stack, above)
  {
    if stack.Push? { FramesMonotone(p, less, more, stack.below, Some(stack.top.id)); }
  }

  lemma LeaveFrames<C(!new)>(p: Parents<C>, finished: seq<C>, stack: Stack<C>)
    requires stack.Push? && FramesOk(p, finished + [stack.top.id], stack.below, Some(stack.top.id))
    ensures FramesOk(p, finished + [stack.top.id], stack.below, None)
  {
  }

  lemma FinishedGrows<C(!new)>(p: Parents<C>, finished: seq<C>, c: C)
    requires Finished(p, finished) && forall y :: Edge(p, c, y) ==> y in finished
    ensures Finished(p, finished + [c])
  {
    var more := finished + [c];
    forall i, y | 0 <= i < |more| && Edge(p, more[i], y) ensures y in more[..i] {
      if i < |finished| {
        assert more[..i] == finished[..i];
      } else {
        assert more[..i] == finished;
      }
    }
  }

  lemma LeaveKeeps<C(!new)>(p: Parents<C>, start: C, t: Trace<C>)
    requires TraceOk(p, start, t) && t.stack.Push? && !Pending(t.stack)
    ensures TraceOk(p, start, Leave(t))
  {
    var f := t.stack.top;
    FramesMonotone(p, t.finished, t.finished + [f.id], t.stack.below, Some(f.id));
    LeaveFrames(p, t.finished, t.stack);
    FinishedGrows(p, t.finished, f.id);
    assert Remaining(t.stack) == Remaining(t.stack.below);
    assert Commits(t.finished + [f.id]) == Commits(t.finished) + {f.id};
    assert f.id !in Commits(t.finished);
  }

  /** Every commit on the path has the commit being visited among its proper ancestors. */
  lemma {:induction false} PathReaches<C(!new)>(p: Parents<C>, finished: seq<C>, stack: Stack<C>, above: C, c: C)
    requires FramesOk(p, finished, stack, Some(above)) && c in OnPath(stack)
    ensures ReachesProperly(p, c, above)
  {
    var f := stack.top;
    ReachesByEdge(p, f.id, above);
    if c != f.id {
      PathReaches(p, finished, stack.below, f.id, c);
      var m :| Edge(p, c, m) && Reaches(p, m, f.id);
      ReachesTrans(p, m, f.id, above);
    }
  }

  /** A parent that was entered and not finished closes a cycle. */
  lemma GreyIsCyclic<C(!new)>(p: Parents<C>, start: C, t: Trace<C>)
    requires TraceOk(p, start, t) && Pending(t.stack) && Next(t.stack) in t.order && Next(t.stack) !in t.finished
    ensures ReachesProperly(p, Next(t.stack), Next(t.stack))
  {
    var c := Next(t.stack);
    assert c in Commits(t.order);
    PathReaches(p, t.finished, Advance(t.stack), c, c);
  }

  lemma DoneIsComplete<C(!new)>(p: Parents<C>, start: C, t: Trace<C>)
    requires TraceOk(p, start, t) && t.stack.Empty?
    ensures t.order == Preorder(p, start) && Sound(p, start)
    ensures Commits(t.order) == ReachSet(p, start) && |t.order| == |ReachSet(p, start)|
  {
    forall c ensures c in t.order <==> c in t.finished {
      assert c in Commits(t.order) <==> c in Commits(t.finished);
    }
    forall c | Reaches(p, start, c) ensures c in t.order && !ReachesProperly(p, c, c) {
      FinishedIsAcyclic(p, t.finished, start, c);
      ReachesSelf(p, c);
      FinishedIsAcyclic(p, t.finished, c, c);
    }
    CommitsCount(t.order);
  }

  lemma {:induction false} CommitsCount<C(!new)>(s: seq<C>)
    requires NoDuplicates(s)
    ensures |Commits(s)| == |s|
  {
    if s != [] {
      var n := |s| - 1;
      CommitsCount(s[..n]);
      assert Commits(s) == Commits(s[..n]) + {s[n]};
    }
  }

  // ---- the walk -----------------------------------------------------------------------------

  datatype Search<!C> = Search(stack: Stack<C>, order: seq<C>, record: Parents<C>)
  datatype Followed<!C> = Going(search: Search<C>) | Ended(outcome: Outcome<C>)
  datatype Entry<C> = Entered(parents: seq<C>) | Stopped(outcome: Outcome<C>)
  datatype Loaded<C> = Parents(parents: seq<C>) | Unknown | OverLimit(visited: nat) | Late | Broken

  const WINDOW_RAMP := 4
  const USIZE_MAX := 0xffff_ffff_ffff_ffff

  function Min(a: nat, b: nat): nat { if a < b then a else b }

  predicate ColoursAre<C(!new,==)>(colour: map<C, Colour>, order: seq<C>, done: seq<C>) {
    colour.Keys == Commits(order) && forall c :: c in colour ==> (colour[c].Black? <==> c in done)
  }

  /** Exactly the entered commits, with the table's parents. */
  predicate RecordIs<C(!new,==)>(record: Parents<C>, p: Parents<C>, order: seq<C>) {
    record.Keys == Commits(order) && forall c :: c in record ==> c in p && record[c] == p[c]
  }

  lemma EnterColours<C(!new)>(colour: map<C, Colour>, order: seq<C>, done: seq<C>, c: C)
    requires ColoursAre(colour, order, done) && c !in done
    ensures ColoursAre(colour[c := Grey], order + [c], done)
  {
    assert Commits(order + [c]) == Commits(order) + {c};
  }

  lemma EnterRecords<C(!new)>(p: Parents<C>, record: Parents<C>, order: seq<C>, c: C)
    requires RecordIs(record, p, order) && c in p
    ensures RecordIs(record[c := p[c]], p, order + [c])
    ensures Commits(order + [c]) == Commits(order) + {c}
  {
    assert Commits(order + [c]) == Commits(order) + {c};
  }

  lemma LeaveColours<C(!new)>(colour: map<C, Colour>, order: seq<C>, done: seq<C>, c: C)
    requires ColoursAre(colour, order, done) && c in Commits(order)
    ensures ColoursAre(colour[c := Black], order, done + [c])
  {
  }

  predicate Shrinks<C(!new,==)>(p: Parents<C>, s: Search<C>, t: Search<C>) {
    || (t.order == s.order && |Remaining(t.stack)| < |Remaining(s.stack)|)
    || p.Keys - Commits(t.order) < p.Keys - Commits(s.order)
  }

  lemma RemoveShrinks<C(!new)>(m: map<C, seq<C>>, c: C)
    ensures |m - {c}| <= |m|
  {
    assert m.Keys == (m - {c}).Keys + (m.Keys * {c});
  }

  /** A complete walk's results: what is reachable, in preorder, with its parents. */
  ghost predicate Collected<C(!new)>(p: Parents<C>, start: C, order: seq<C>, record: Parents<C>) {
    && order == Preorder(p, start) && NoDuplicates(order) && Commits(order) == ReachSet(p, start)
    && RecordIs(record, p, order)
  }

  lemma StopIsTruthful<C(!new)>(p: Parents<C>, out: Outside<C>, start: C, goal: set<C>, max: nat, order: seq<C>, c: C)
    requires NoDuplicates(order) && c !in order && |order| <= max && Reaches(p, start, c)
    requires AllReachable(p, start, Commits(order))
    ensures c !in p ==> Truthful(p, out, start, goal, max, UnknownCommit(c))
    ensures |order| == max ==> Truthful(p, out, start, goal, max, VisitLimit(max))
  {
    CommitsCount(order);
    assert AllReachable(p, start, Commits(order) + {c}) && |Commits(order) + {c}| == |order| + 1;
  }

  /** A provider's reply to a request for at most `max` commits around `start`. */
  predicate WindowOk<C(!new,==)>(p: Parents<C>, start: C, max: nat, w: seq<(C, seq<C>)>) {
    && |w| <= max
    && (forall i :: 0 <= i < |w| ==> w[i].0 in p && w[i].1 == p[w[i].0])
    && (start in p ==> exists i :: 0 <= i < |w| && w[i].0 == start)
  }

  /** A provider whose windows agree with the table, whatever else they prefetch. */
  ghost predicate Truth<C(!new)>(p: Parents<C>, out: Outside<C>) {
    forall id, max: nat, call: nat :: max >= 1 ==> WindowOk(p, id, max, out.window(id, max, call))
  }

  class Walk<C(!new,==)> {
    const table: Parents<C>
    const out: Outside<C>
    const maxVisited: nat
    var colour: map<C, Colour>
    var prefetched: map<C, seq<C>>
    var ramp: nat
    var calls: nat
    var readings: nat

    constructor (table: Parents<C>, out: Outside<C>, maxVisited: nat)
      ensures this.table == table && this.out == out && this.maxVisited == maxVisited
      ensures colour == map[] && prefetched == map[] && Quiet()
    {
      this.table, this.out, this.maxVisited := table, out, maxVisited;
      colour, prefetched, ramp, calls, readings := map[], map[], 1, 0, 0;
    }

    /** No reading of the clock so far was late. */
    predicate InTime()
      reads `readings
    {
      forall n :: 0 <= n < readings ==> !out.late(n)
    }

    /** No call of the provider so far failed. */
    predicate Answered()
      reads `calls
    {
      forall n :: 0 <= n < calls ==> !out.fails(n)
    }

    predicate Quiet()
      reads this
    {
      InTime() && Answered()
    }

    /** Whether the deadline has passed. */
    method ReadClock() returns (late: bool)
      requires InTime()
      modifies `readings
      ensures late <==> !InTime()
    {
      late := out.late(readings);
      readings := readings + 1;
    }

    /** What is prefetched is true of the table and bounded by the visit limit. */
    predicate CacheOk()
      reads `prefetched
    {
      |prefetched| <= maxVisited && forall c :: c in prefetched ==> c in table && prefetched[c] == table[c]
    }

    /** Keep a window's other entries for later and pick the anchor's own answer. */
    method Absorb(id: C, max: nat, w: seq<(C, seq<C>)>) returns (found: Loaded<C>)
      requires CacheOk() && WindowOk(table, id, max, w)
      modifies `prefetched
      ensures CacheOk()
      ensures found == if id in table then Parents(table[id]) else Unknown
    {
      found := Unknown;
      for i := 0 to |w|
        invariant CacheOk()
        invariant found == if (exists j :: 0 <= j < i && w[j].0 == id) then Parents(table[id]) else Unknown
      {
        var (commit, parents) := w[i];
        if commit == id {
          if found.Unknown? { found := Parents(parents); }
        } else if commit !in colour && |prefetched| < maxVisited && commit !in prefetched {
          assert prefetched[commit := parents].Keys == prefetched.Keys + {commit};
          prefetched := prefetched[commit := parents];
        }
      }
    }

    /** A load is late exactly when a reading of the clock was, and broken exactly when a call failed. */
    predicate LoadsAs(r: Loaded<C>)
      reads this
    {
      (r.Late? <==> !InTime()) && (r.Broken? <==> !Answered())
    }

    /** Call the provider for a window anchored at `id`, within the remaining budget and the ramp. */
    method Ask(id: C, wanted: nat) returns (max: nat, w: seq<(C, seq<C>)>, failed: bool)
      requires Truth(table, out) && |colour| < maxVisited && Answered()
      modifies `ramp, `calls
      ensures WindowOk(table, id, max, w) && (failed <==> !Answered())
      ensures 1 <= max <= maxVisited - |colour| && (max <= wanted || max == 1) && (max <= old(ramp) || max == 1)
      ensures max == maxVisited - |colour| || max == wanted || max == old(ramp) || max == 1
      ensures ramp == Min(4 * old(ramp), USIZE_MAX) && calls == old(calls) + 1
    {
      max := Min(Min(maxVisited - |colour|, wanted), ramp);
      if max < 1 { max := 1; }
      ramp := Min(ramp * WINDOW_RAMP, USIZE_MAX);
      w, failed := out.window(id, max, calls), out.fails(calls);
      calls := calls + 1;
    }

    /** The provider's answer for `id`, unless the call fails or returns after the deadline. */
    method Fetch(id: C, wanted: nat) returns (r: Loaded<C>)
      requires Truth(table, out) && CacheOk() && |colour| < maxVisited && Quiet()
      modifies `prefetched, `ramp, `calls, `readings
      ensures CacheOk() && LoadsAs(r)
      ensures !r.Late? && !r.Broken? ==> r == if id in table then Parents(table[id]) else Unknown
    {
      var max, w, failed := Ask(id, wanted);
      if failed { return Broken; }
      var late := ReadClock();
      if late { return Late; }
      r := Absorb(id, max, w);
    }

    /** The parents of a commit that has not been entered yet, from memory or from the provider. */
    method Load(id: C, wanted: nat) returns (r: Loaded<C>)
      requires Truth(table, out) && CacheOk() && Quiet()
      modifies `prefetched, `ramp, `calls, `readings
      ensures CacheOk() && LoadsAs(r)
      ensures |colour| >= maxVisited ==> r == OverLimit(|colour|)
      ensures |colour| < maxVisited && !r.Late? && !r.Broken? ==>
        r == if id in table then Parents(table[id]) else Unknown
    {
      if |colour| >= maxVisited { return OverLimit(|colour|); }
      var late := ReadClock();
      if late { return Late; }
      if id in prefetched {
        r := Parents(prefetched[id]);
        RemoveShrinks(prefetched, id);
        prefetched := prefetched - {id};
      } else {
        r := Fetch(id, wanted);
      }
    }

    /** A search ends on the deadline exactly when a reading of the clock was late, and on the provider
        exactly when a call failed. */
    predicate EndsAs(r: Outcome<C>)
      reads this
    {
      (r.Deadline? <==> !InTime()) && (r.ProviderFailed? <==> !Answered())
    }

    /** Load a commit just discovered, colour it and ask the visitor; a failure or a hit stops the
        search. */
    method Enter(start: C, c: C, goal: set<C>, ghost order: seq<C>, ghost done: seq<C>)
      returns (r: Entry<C>)
      requires Truth(table, out) && CacheOk() && Quiet() && ColoursAre(colour, order, done)
      requires NoDuplicates(order) && c !in order && c !in done && |order| <= maxVisited
      requires Reaches(table, start, c) && AllReachable(table, start, Commits(order))
      modifies this
      ensures r.Stopped? ==> !r.outcome.Complete? && EndsAs(r.outcome)
      ensures r.Stopped? ==> Truthful(table, out, start, goal, maxVisited, r.outcome)
      ensures r.Entered? ==>
        && CacheOk() && Quiet() && ColoursAre(colour, order + [c], done) && |order| < maxVisited
        && c in table && r.parents == table[c] && c !in goal
    {
      CommitsCount(order);
      StopIsTruthful(table, out, start, goal, maxVisited, order, c);
      var loaded := Load(c, USIZE_MAX);
      match loaded
      case Unknown => return Stopped(UnknownCommit(c));
      case OverLimit(visited) => return Stopped(VisitLimit(visited));
      case Late => return Stopped(Deadline);
      case Broken => return Stopped(ProviderFailed);
      case Parents(parents) =>
        EnterColours(colour, order, done, c);
        colour := colour[c := Grey];
        return if c in goal then Stopped(Hit) else Entered(parents);
    }

    ghost predicate SearchOk(start: C, goal: set<C>, s: Search<C>, done: seq<C>)
      reads this
    {
      && CacheOk() && Quiet() && ColoursAre(colour, s.order, done) && RecordIs(s.record, table, s.order)
      && TraceOk(table, start, Trace(s.stack, s.order, done))
      && Commits(s.order) !! goal && |s.order| <= maxVisited
    }

    /** Follow the top frame's next parent: a cycle, a finished commit, or a new one to enter. */
    method Follow(start: C, goal: set<C>, s: Search<C>, ghost done: seq<C>) returns (r: Followed<C>)
      requires Truth(table, out) && SearchOk(start, goal, s, done) && Pending(s.stack)
      modifies this
      ensures r.Ended? ==> !r.outcome.Complete? && EndsAs(r.outcome)
      ensures r.Ended? ==> Truthful(table, out, start, goal, maxVisited, r.outcome)
      ensures r.Going? ==> SearchOk(start, goal, r.search, done) && Shrinks(table, s, r.search)
    {
      ghost var t := Trace(s.stack, s.order, done);
      var parent, stack := Next(s.stack), Advance(s.stack);
      AdvanceRemaining(s.stack);
      NextIsReachable(table, start, t);
      if parent in colour && colour[parent].Grey? {
        GreyIsCyclic(table, start, t);
        return Ended(Cycle(parent));
      } else if parent in colour {
        SkipKeeps(table, start, t);
        return Going(s.(stack := stack));
      } else {
        NextIsNew(table, t);
        var entry := Enter(start, parent, goal, s.order, done);
        if entry.Stopped? { return Ended(entry.outcome); }
        DescendKeeps(table, start, t);
        EnterRecords(table, s.record, s.order, parent);
        return Going(Search(Push(Frame(parent, entry.parents, 0), stack),
                            s.order + [parent], s.record[parent := entry.parents]));
      }
    }

    /** Every parent of the top commit is finished, so the commit is. */
    method Finish(start: C, goal: set<C>, s: Search<C>, ghost done: seq<C>)
      requires SearchOk(start, goal, s, done) && s.stack.Push? && !Pending(s.stack)
      modifies `colour
      ensures SearchOk(start, goal, s.(stack := s.stack.below), done + [s.stack.top.id])
    {
      LeaveKeeps(table, start, Trace(s.stack, s.order, done));
      LeaveColours(colour, s.order, done, s.stack.top.id);
      colour := colour[s.stack.top.id := Black];
    }

    /** The search. Its outcome is true of the table; a complete one entered exactly the reachable
        commits, each once, in preorder, and recorded their parents. */
    method Dfs(start: C, goal: set<C>) returns (r: Outcome<C>, order: seq<C>, record: Parents<C>)
      requires Truth(table, out) && CacheOk() && Quiet() && colour == map[]
      modifies this
      ensures Truthful(table, out, start, goal, maxVisited, r) && EndsAs(r)
      ensures r.Complete? ==> Collected(table, start, order, record)
    {
      ReachesSelf(table, start);
      ghost var done: seq<C> := [];
      var entry := Enter(start, start, goal, [], done);
      if entry.Stopped? { return entry.outcome, [], map[]; }
      assert [] + [start] == [start];
      StartOk(table, start);
      var s := Search(Push(Frame(start, entry.parents, 0), Empty), [start], map[start := entry.parents]);
      while s.stack.Push?
        invariant SearchOk(start, goal, s, done)
        decreases table.Keys - Commits(s.order), |Remaining(s.stack)|, s.stack
      {
        if Pending(s.stack) {
          var step := Follow(start, goal, s, done);
          if step.Ended? { return step.outcome, s.order, s.record; }
          s := step.search;
        } else {
          Finish(start, goal, s, done);
          done, s := done + [s.stack.top.id], s.(stack := s.stack.below);
        }
      }
      DoneIsComplete(table, start, Trace(s.stack, s.order, done));
      return Complete, s.order, s.record;
    }
  }
}
