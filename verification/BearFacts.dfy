/** Membership facts about the statements of a window: the code finds each fact by version number
    and writes it down with the labels of the workload's boundaries. */
module BearFacts {
  import opened Basics
  import opened Wire
  import opened Lineage
  import opened BearWorkload

  const MAX_FACTS := 5

  datatype Fact = Fact(quad: Quad, present: seq<Label>, absent: seq<Label>)

  // ---- facts by version number ------------------------------------------------------------------------------

  /** A statement deleted by step `j` and first held again by version `l`. */
  datatype Mark = Mark(quad: Quad, j: nat, l: nat)

  predicate Here(p: Prepared, q: Quad, k: nat) { k <= |p.steps| && q in VersionState(p, k) }

  predicate Gone(p: Prepared, q: Quad, k: nat) { k <= |p.steps| && q !in VersionState(p, k) }

  /** There at version `j`, gone at every version between, there again at version `l`. */
  ghost predicate MarkTrue(p: Prepared, m: Mark) {
    && m.j + 2 <= m.l && Here(p, m.quad, m.j) && Here(p, m.quad, m.l)
    && forall k: nat {:trigger Gone(p, m.quad, k)} :: m.j < k < m.l ==> Gone(p, m.quad, k)
  }

  ghost predicate MarksTrue(p: Prepared, ms: seq<Mark>) {
    forall i :: 0 <= i < |ms| ==> MarkTrue(p, ms[i])
  }

  /** The first version from `l` on that holds the statement; one past the last if none does. */
  function FirstHere(p: Prepared, q: Quad, l: nat): (k: nat)
    requires l <= |p.steps| + 1
    ensures l <= k <= |p.steps| + 1 && (k <= |p.steps| ==> Here(p, q, k))
    ensures forall m: nat {:trigger Gone(p, q, m)} :: l <= m < k ==> Gone(p, q, m)
    decreases |p.steps| + 1 - l
  {
    if l > |p.steps| || Here(p, q, l) then l
    else
      assert Gone(p, q, l);
      FirstHere(p, q, l + 1)
  }

  /** The mark of a statement deleted by step `j`, if a version after the next one holds it again. */
  function MarkOf(p: Prepared, j: nat, q: Quad): seq<Mark>
    requires j < |p.steps|
  {
    var l := FirstHere(p, q, j + 2);
    if l <= |p.steps| then [Mark(q, j, l)] else []
  }

  function StepMarks(p: Prepared, j: nat, dels: seq<Quad>): seq<Mark>
    requires j < |p.steps|
  {
    if dels == [] then [] else StepMarks(p, j, dels[..|dels| - 1]) + MarkOf(p, j, dels[|dels| - 1])
  }

  /** The marks of the first `n` steps: by step, then in statement order. */
  function MarksUpTo(p: Prepared, n: nat): seq<Mark>
    requires n <= |p.steps|
  {
    if n == 0 then [] else MarksUpTo(p, n - 1) + StepMarks(p, n - 1, Listing(p.steps[n - 1].dels))
  }

  function AllMarks(p: Prepared): seq<Mark> { MarksUpTo(p, |p.steps|) }

  /** The marks that are written down. */
  function Found(p: Prepared): seq<Mark> {
    if |AllMarks(p)| <= MAX_FACTS then AllMarks(p) else AllMarks(p)[..MAX_FACTS]
  }

  lemma MarkIsTrue(p: Prepared, j: nat, q: Quad)
    requires Proper(p) && j < |p.steps| && q in p.steps[j].dels
    ensures MarksTrue(p, MarkOf(p, j, q))
  {
    assert ProperAt(p, j);
    assert Here(p, q, j) && Gone(p, q, j + 1);
  }

  lemma {:induction false} StepMarksAreTrue(p: Prepared, j: nat, dels: seq<Quad>)
    requires Proper(p) && j < |p.steps| && Members(dels) <= p.steps[j].dels
    ensures MarksTrue(p, StepMarks(p, j, dels))
  {
    if dels != [] {
      var n := |dels| - 1;
      assert dels[n] in Members(dels) && Members(dels[..n]) <= Members(dels);
      StepMarksAreTrue(p, j, dels[..n]);
      MarkIsTrue(p, j, dels[n]);
    }
  }

  lemma {:induction false} MarksAreTrue(p: Prepared, n: nat)
    requires Proper(p) && n <= |p.steps|
    ensures MarksTrue(p, MarksUpTo(p, n))
  {
    if n > 0 {
      MarksAreTrue(p, n - 1);
      StepMarksAreTrue(p, n - 1, Listing(p.steps[n - 1].dels));
    }
  }

  /** Every fact found is true of the source versions. */
  lemma FoundIsTrue(p: Prepared)
    requires Proper(p)
    ensures MarksTrue(p, Found(p))
  {
    MarksAreTrue(p, |p.steps|);
  }

  predicate Marked(ms: seq<Mark>, j: nat, q: Quad) { exists i :: 0 <= i < |ms| && ms[i].quad == q && ms[i].j == j }

  lemma MarkedStays(ms: seq<Mark>, rest: seq<Mark>, j: nat, q: Quad)
    ensures Marked(ms, j, q) || Marked(rest, j, q) ==> Marked(ms + rest, j, q)
  {
    var all := ms + rest;
    if i :| 0 <= i < |ms| && ms[i].quad == q && ms[i].j == j { assert all[i] == ms[i]; }
    if i :| 0 <= i < |rest| && rest[i].quad == q && rest[i].j == j { assert all[|ms| + i] == rest[i]; }
  }

  /** Step `j` deletes the statement and version `l`, after the next one, holds it again. */
  predicate Returns(p: Prepared, j: nat, q: Quad, l: nat) {
    j < |p.steps| && q in p.steps[j].dels && j + 2 <= l && Here(p, q, l)
  }

  lemma {:induction false} StepMarksCover(p: Prepared, j: nat, dels: seq<Quad>, q: Quad, l: nat)
    requires Returns(p, j, q, l) && q in dels
    ensures Marked(StepMarks(p, j, dels), j, q)
  {
    var n := |dels| - 1;
    if dels[n] == q {
      assert !Gone(p, q, l);
      assert MarkOf(p, j, q)[0].quad == q;
      MarkedStays(StepMarks(p, j, dels[..n]), MarkOf(p, j, q), j, q);
    } else {
      StepMarksCover(p, j, dels[..n], q, l);
      MarkedStays(StepMarks(p, j, dels[..n]), MarkOf(p, j, dels[n]), j, q);
    }
  }

  lemma {:induction false} MarksCover(p: Prepared, n: nat, j: nat, q: Quad, l: nat)
    requires n <= |p.steps| && j < n && Returns(p, j, q, l)
    ensures Marked(MarksUpTo(p, n), j, q)
  {
    var dels := Listing(p.steps[n - 1].dels);
    if j == n - 1 {
      assert q in Members(dels);
      StepMarksCover(p, j, dels, q, l);
    } else {
      MarksCover(p, n - 1, j, q, l);
    }
    MarkedStays(MarksUpTo(p, n - 1), StepMarks(p, n - 1, dels), j, q);
  }

  /** Below the cap no reappearance is missing. */
  lemma FoundIsComplete(p: Prepared, j: nat, q: Quad, l: nat)
    requires |Found(p)| < MAX_FACTS && Returns(p, j, q, l)
    ensures Marked(Found(p), j, q)
  {
    MarksCover(p, |p.steps|, j, q, l);
  }

  lemma {:induction false} StepMarksPrefix(p: Prepared, j: nat, dels: seq<Quad>, i: nat)
    requires j < |p.steps| && i <= |dels|
    ensures StepMarks(p, j, dels[..i]) <= StepMarks(p, j, dels)
    decreases |dels| - i
  {
    if i == |dels| {
      assert dels[..i] == dels;
    } else {
      StepMarksPrefix(p, j, dels, i + 1);
      assert dels[..i + 1][..i] == dels[..i];
    }
  }

  lemma {:induction false} MarksPrefix(p: Prepared, n: nat)
    requires n <= |p.steps|
    ensures MarksUpTo(p, n) <= AllMarks(p)
    decreases |p.steps| - n
  {
    if n < |p.steps| { MarksPrefix(p, n + 1); }
  }

  /** The marks after `i` of the statements that step `j` deletes. */
  function SoFar(p: Prepared, j: nat, dels: seq<Quad>, i: nat): seq<Mark>
    requires j < |p.steps| && i <= |dels|
  {
    MarksUpTo(p, j) + StepMarks(p, j, dels[..i])
  }

  lemma SoFarGrows(p: Prepared, j: nat, dels: seq<Quad>, i: nat)
    requires j < |p.steps| && i < |dels|
    ensures SoFar(p, j, dels, i + 1) == SoFar(p, j, dels, i) + MarkOf(p, j, dels[i])
  {
    assert dels[..i + 1][..i] == dels[..i] && dels[..i + 1][i] == dels[i];
  }

  lemma SoFarIsPrefix(p: Prepared, j: nat, dels: seq<Quad>, i: nat)
    requires j < |p.steps| && i <= |dels| && dels == Listing(p.steps[j].dels)
    ensures SoFar(p, j, dels, i) <= AllMarks(p)
  {
    StepMarksPrefix(p, j, dels, i);
    MarksPrefix(p, j + 1);
    PrefixJoins(MarksUpTo(p, j), StepMarks(p, j, dels[..i]), StepMarks(p, j, dels), AllMarks(p));
  }

  lemma PrefixJoins(a: seq<Mark>, b: seq<Mark>, c: seq<Mark>, all: seq<Mark>)
    requires b <= c && a + c <= all
    ensures a + b <= all
  {
    assert (a + c)[..|a + b|] == a + b;
  }

  // ---- facts as they are written down ------------------------------------------------------------------------

  predicate InRange(versions: seq<Label>, ms: seq<Mark>) {
    forall i :: 0 <= i < |ms| ==> ms[i].j < ms[i].l < |versions|
  }

  function Told(versions: seq<Label>, m: Mark): Fact
    requires m.j < m.l < |versions|
  {
    Fact(m.quad, [versions[m.j], versions[m.l]], versions[m.j + 1..m.l])
  }

  function AllTold(versions: seq<Label>, ms: seq<Mark>): seq<Fact>
    requires InRange(versions, ms)
  {
    seq(|ms|, i requires 0 <= i < |ms| => Told(versions, ms[i]))
  }

  /** A statement the last version gained, and one it lost, against the first. */
  function Tips(p: Prepared, versions: seq<Label>): seq<Fact>
    requires versions != []
  {
    var first, last, n := VersionState(p, 0), VersionState(p, |p.steps|), |versions| - 1;
    (if last - first != {} then [Fact(Listing(last - first)[0], [versions[n]], [versions[0]])] else [])
    + if first - last != {} then [Fact(Listing(first - last)[0], [versions[0]], [versions[n]])] else []
  }

  predicate StateOk(p: Prepared, states: seq<set<Quad>>, k: nat)
    requires |states| <= |p.steps| + 1
  {
    k < |states| ==> states[k] == VersionState(p, k)
  }

  ghost predicate StatesOk(p: Prepared, states: seq<set<Quad>>) {
    |states| <= |p.steps| + 1 && forall k: nat {:trigger StateOk(p, states, k)} :: StateOk(p, states, k)
  }

  /** The first later version that holds the statement again. */
  method FindAgain(p: Prepared, states: seq<set<Quad>>, j: nat, q: Quad) returns (l: nat)
    requires j < |p.steps| && |states| == |p.steps| + 1 && StatesOk(p, states)
    ensures l == FirstHere(p, q, j + 2)
  {
    l := j + 2;
    while l < |states| && q !in states[l]
      invariant j + 2 <= l <= |states| && FirstHere(p, q, j + 2) == FirstHere(p, q, l)
    {
      assert StateOk(p, states, l);
      l := l + 1;
    }
    assert StateOk(p, states, l);
  }

  /** One deleted statement: its mark is written down, or a label is missing. */
  method Reappears(p: Prepared, states: seq<set<Quad>>, versions: seq<Label>, j: nat, q: Quad)
    returns (r: Result<seq<Fact>>)
    requires |states| == |p.steps| + 1 && StatesOk(p, states) && j < |p.steps|
    ensures r.Ok? <==> InRange(versions, MarkOf(p, j, q))
    ensures r.Ok? ==> r.value == AllTold(versions, MarkOf(p, j, q))
  {
    var l := FindAgain(p, states, j, q);
    if l >= |states| { return Ok([]); }
    assert MarkOf(p, j, q)[0] == Mark(q, j, l);
    if l >= |versions| { return Err("index out of bounds"); }
    return Ok([Fact(q, [versions[j], versions[l]], versions[j + 1..l])]);
  }

  lemma ToldJoins(versions: seq<Label>, a: seq<Mark>, b: seq<Mark>)
    ensures InRange(versions, a + b) <==> InRange(versions, a) && InRange(versions, b)
    ensures InRange(versions, a + b) ==> AllTold(versions, a + b) == AllTold(versions, a) + AllTold(versions, b)
  {
    var all := a + b;
    if InRange(versions, all) {
      forall i | 0 <= i < |a| ensures a[i].j < a[i].l < |versions| { assert all[i] == a[i]; }
      forall i | 0 <= i < |b| ensures b[i].j < b[i].l < |versions| { assert all[|a| + i] == b[i]; }
    }
  }

  /** What the loop has written after some of the marks. */
  predicate Writing(p: Prepared, versions: seq<Label>, ms: seq<Mark>, out: seq<Fact>) {
    ms <= AllMarks(p) && |ms| < MAX_FACTS && InRange(versions, ms) && out == AllTold(versions, ms)
  }

  /** Writing down `m` after `ms`: the list goes on, is full, or lacks a label. */
  lemma NextMark(p: Prepared, versions: seq<Label>, ms: seq<Mark>, m: seq<Mark>, out: seq<Fact>)
    requires Writing(p, versions, ms, out) && |m| <= 1 && ms + m <= AllMarks(p)
    ensures !InRange(versions, m) ==> !InRange(versions, Found(p))
    ensures InRange(versions, m) && |ms + m| < MAX_FACTS ==> Writing(p, versions, ms + m, out + AllTold(versions, m))
    ensures InRange(versions, m) && |ms + m| == MAX_FACTS ==>
      InRange(versions, Found(p)) && out + AllTold(versions, m) == AllTold(versions, Found(p))
  {
    ToldJoins(versions, ms, m);
    var more, found := ms + m, Found(p);
    assert more <= found;
    assert more + found[|more|..] == found;
    ToldJoins(versions, more, found[|more|..]);
    if |more| == MAX_FACTS { assert found == more; }
  }

  datatype Progress = Going(out: seq<Fact>) | Full(out: seq<Fact>) | Stuck(reason: string)

  /** Where a scan that stops early stands. */
  predicate Stops(p: Prepared, versions: seq<Label>, r: Progress) {
    match r
    case Going(_) => true
    case Full(out) => InRange(versions, Found(p)) && out == AllTold(versions, Found(p))
    case Stuck(_) => !InRange(versions, Found(p))
  }

  /** The statements deleted by one step. */
  method StepFacts(p: Prepared, states: seq<set<Quad>>, versions: seq<Label>, j: nat, before: seq<Fact>)
    returns (r: Progress)
    requires |states| == |p.steps| + 1 && StatesOk(p, states) && j < |p.steps|
      && Writing(p, versions, MarksUpTo(p, j), before)
    ensures Stops(p, versions, r) && (r.Going? ==> Writing(p, versions, MarksUpTo(p, j + 1), r.out))
  {
    var dels, out := Listing(p.steps[j].dels), before;
    assert dels[..0] == [] && SoFar(p, j, dels, 0) == MarksUpTo(p, j);
    for i := 0 to |dels|
      invariant Writing(p, versions, SoFar(p, j, dels, i), out)
    {
      SoFarGrows(p, j, dels, i);
      SoFarIsPrefix(p, j, dels, i + 1);
      NextMark(p, versions, SoFar(p, j, dels, i), MarkOf(p, j, dels[i]), out);
      var step := Reappears(p, states, versions, j, dels[i]);
      if step.Err? { return Stuck(step.reason); }
      out := out + step.value;
      if |out| == MAX_FACTS { return Full(out); }
    }
    assert dels[..|dels|] == dels;
    return Going(out);
  }

  /** Every reappearance of the window, in order, up to the cap or the first missing label. */
  method Reappearances(p: Prepared, states: seq<set<Quad>>, versions: seq<Label>) returns (r: Result<seq<Fact>>)
    requires |states| == |p.steps| + 1 && StatesOk(p, states)
    ensures r.Ok? <==> InRange(versions, Found(p))
    ensures r.Ok? ==> r.value == AllTold(versions, Found(p))
  {
    var out := [];
    for j := 0 to |p.steps|
      invariant Writing(p, versions, MarksUpTo(p, j), out)
    {
      var step := StepFacts(p, states, versions, j, out);
      match step
      case Stuck(reason) => return Err(reason);
      case Full(all) => return Ok(all);
      case Going(more) => out := more;
    }
    return Ok(out);
  }

  /** The states of the window's versions, replayed from its base. */
  method States(p: Prepared) returns (states: seq<set<Quad>>)
    ensures |states| == |p.steps| + 1 && StatesOk(p, states)
  {
    states := [p.base];
    for k := 0 to |p.steps|
      invariant |states| == k + 1 && StatesOk(p, states)
    {
      var next := states + [(states[k] - p.steps[k].dels) + p.steps[k].adds];
      assert StateOk(p, states, k);
      forall i: nat ensures StateOk(p, next, i) { assert StateOk(p, states, i); }
      states := next;
    }
  }

  /** All facts of a window under any list of labels: the marks found and the tips, with the labels at
      their places. Writing them down fails exactly when a label is missing. */
  method HistoryFacts(p: Prepared, versions: seq<Label>) returns (r: Result<seq<Fact>>)
    ensures r.Ok? <==> versions != [] && InRange(versions, Found(p))
    ensures r.Ok? ==> r.value == AllTold(versions, Found(p)) + Tips(p, versions)
  {
    var states := States(p);
    r := Reappearances(p, states, versions);
    if r.Err? { return; }
    var first, last := states[0], states[|states| - 1];
    assert StateOk(p, states, 0) && StateOk(p, states, |states| - 1);
    if versions == [] { return Err("index out of bounds"); }
    var n := |versions| - 1;
    var tips := [];
    if last - first != {} { tips := tips + [Fact(Listing(last - first)[0], [versions[n]], [versions[0]])]; }
    if first - last != {} { tips := tips + [Fact(Listing(first - last)[0], [versions[0]], [versions[n]])]; }
    assert tips == Tips(p, versions);
    r := Ok(r.value + tips);
  }

  // ---- when the facts are true --------------------------------------------------------------------------------

  /** A label, read as the source version it names. */
  predicate Holds(p: Prepared, quad: Quad, l: Label, present: bool) {
    p.start <= l.v <= p.start + |p.steps| && (quad in VersionState(p, l.v - p.start) <==> present)
  }

  predicate True(p: Prepared, f: Fact) {
    && (forall i :: 0 <= i < |f.present| ==> Holds(p, f.quad, f.present[i], true))
    && (forall i :: 0 <= i < |f.absent| ==> Holds(p, f.quad, f.absent[i], false))
  }

  ghost predicate AllTrue(p: Prepared, fs: seq<Fact>) {
    forall f {:trigger True(p, f)} :: f in fs ==> True(p, f)
  }

  lemma ToldIsTrue(p: Prepared, m: Mark)
    requires MarkTrue(p, m)
    ensures m.l <= |p.steps| && True(p, Told(Versions(p, |p.steps| + 1), m))
  {
    var f := Told(Versions(p, |p.steps| + 1), m);
    forall i | 0 <= i < |f.absent| ensures Holds(p, f.quad, f.absent[i], false) {
      assert f.absent[i] == Version(p.start + (m.j + 1 + i)) && Gone(p, m.quad, m.j + 1 + i);
    }
  }

  lemma TipsAreTrue(p: Prepared, f: Fact)
    requires f in Tips(p, Versions(p, |p.steps| + 1))
    ensures True(p, f)
  {
    var first, last := VersionState(p, 0), VersionState(p, |p.steps|);
    if last - first != {} { assert Listing(last - first)[0] in Members(Listing(last - first)); }
    if first - last != {} { assert Listing(first - last)[0] in Members(Listing(first - last)); }
  }

  /** With one label per source version, none is missing and every fact is true. */
  lemma FactsAreTrueWithOneLabelPerVersion(p: Prepared)
    requires Proper(p)
    ensures InRange(Versions(p, |p.steps| + 1), Found(p))
    ensures AllTrue(p, AllTold(Versions(p, |p.steps| + 1), Found(p)) + Tips(p, Versions(p, |p.steps| + 1)))
  {
    var versions, ms := Versions(p, |p.steps| + 1), Found(p);
    FoundIsTrue(p);
    forall i | 0 <= i < |ms|
      ensures ms[i].j < ms[i].l < |versions| && True(p, Told(versions, ms[i]))
    {
      ToldIsTrue(p, ms[i]);
    }
    forall f | f in AllTold(versions, ms) + Tips(p, versions) ensures True(p, f) {
      if f in Tips(p, versions) { TipsAreTrue(p, f); }
    }
  }

  lemma {:induction false} BoundariesGrow(p: Prepared, m: nat, n: nat)
    requires m <= n <= |p.steps| + 1
    ensures |Boundaries(p, m)| <= |Boundaries(p, n)|
  {
    if m < n { BoundariesGrow(p, m, n - 1); }
  }

  /** A boundary label is never earlier than its place, and it is the label of the version at its
      place exactly when no transition up to there is empty. */
  lemma {:induction false} LabelIsItsVersionExactly(p: Prepared, n: nat, i: nat)
    requires n <= |p.steps| + 1 && i < |Boundaries(p, n)|
    ensures i < n && Boundaries(p, n)[i].Version? && p.start + i <= Boundaries(p, n)[i].v
    ensures Boundaries(p, n)[i] == Version(p.start + i) <==> forall k :: 0 <= k <= i ==> Busy(p, k)
  {
    FewBoundaries(p, n);
    FewBoundaries(p, n - 1);
    if i < |Boundaries(p, n - 1)| {
      LabelIsItsVersionExactly(p, n - 1, i);
    } else if i + 1 < n {
      BoundariesGrow(p, i + 1, n - 1);
      FewBoundaries(p, i + 1);
    }
  }

  /** A window in which a statement is deleted by the second step and back at the third, after an
      empty first step. */
  function Shifted(q: Quad, more: seq<Step>): Prepared {
    Prepared(0, {q}, [Step({}, {}), Step({q}, {}), Step({}, {q})] + more)
  }

  lemma ShiftedStates(q: Quad, more: seq<Step>)
    ensures
      var p := Shifted(q, more);
      VersionState(p, 0) == {q} && VersionState(p, 1) == {q} && VersionState(p, 2) == {} && VersionState(p, 3) == {q}
  {
    var p := Shifted(q, more);
    assert p.steps[0] == Step({}, {}) && p.steps[1] == Step({q}, {}) && p.steps[2] == Step({}, {q});
    assert VersionState(p, 0) == {q};
    assert VersionState(p, 1) == ({q} - {}) + {} == {q};
    assert VersionState(p, 2) == ({q} - {q}) + {} == {};
    assert VersionState(p, 3) == ({} - {}) + {q} == {q};
  }

  lemma ShiftedBoundaries(q: Quad, more: seq<Step>)
    ensures Boundaries(Shifted(q, more), 4) == [Version(0), Version(2), Version(3)]
  {
    var p := Shifted(q, more);
    assert p.steps[0] == Step({}, {}) && p.steps[1] == Step({q}, {}) && p.steps[2] == Step({}, {q});
    assert Busy(p, 0) && !Busy(p, 1) && Busy(p, 2) && Busy(p, 3);
    assert Boundaries(p, 1) == [Version(0)];
    assert Boundaries(p, 2) == [Version(0)];
    assert Boundaries(p, 3) == [Version(0), Version(2)];
  }

  lemma ShiftedFirst(q: Quad, more: seq<Step>)
    ensures FirstHere(Shifted(q, more), q, 3) == 3
  {
    ShiftedStates(q, more);
  }

  /** The first mark of that window is the return of the statement. */
  lemma ShiftedMark(q: Quad, more: seq<Step>)
    ensures |Found(Shifted(q, more))| >= 1 && Found(Shifted(q, more))[0] == Mark(q, 1, 3)
  {
    var p := Shifted(q, more);
    assert p.steps[0].dels == {} && p.steps[1].dels == {q};
    ShiftedFirst(q, more);
    assert MarksUpTo(p, 1) == [];
    ListingIsSorted({q});
    var dels := Listing({q});
    assert dels[0] in Members(dels);
    assert dels == [q] && dels[..0] == [];
    assert MarkOf(p, 1, q) == [Mark(q, 1, 3)];
    assert StepMarks(p, 1, dels) == [Mark(q, 1, 3)];
    assert MarksUpTo(p, 2) == [] + [Mark(q, 1, 3)];
    MarksPrefix(p, 2);
  }

  /** After an empty transition the facts are written with later labels. With one more version the
      statement is said to be present at version 2, where it is gone. */
  lemma AShiftedFactIsFalse(q: Quad, x: Quad)
    requires q != x
    ensures
      var p := Shifted(q, [Step({}, {x})]);
      var versions := Boundaries(p, 5);
      && |versions| == 4 && |Found(p)| >= 1 && Found(p)[0] == Mark(q, 1, 3)
      && Told(versions, Found(p)[0]) == Fact(q, [Version(2), Version(4)], [Version(3)])
      && !True(p, Told(versions, Found(p)[0]))
  {
    var p := Shifted(q, [Step({}, {x})]);
    ShiftedMark(q, [Step({}, {x})]);
    ShiftedStates(q, [Step({}, {x})]);
    ShiftedBoundaries(q, [Step({}, {x})]);
    assert p.steps[3] == Step({}, {x}) && Busy(p, 4);
    assert Boundaries(p, 5) == [Version(0), Version(2), Version(3), Version(4)];
    var f := Told(Boundaries(p, 5), Found(p)[0]);
    assert !Holds(p, q, f.present[0], true);
  }

  /** Without that version there is no fourth label to write, and the facts fail altogether. */
  lemma AMissingLabelFails(q: Quad)
    ensures !InRange(Boundaries(Shifted(q, []), 4), Found(Shifted(q, [])))
  {
    ShiftedMark(q, []);
    ShiftedBoundaries(q, []);
    assert Found(Shifted(q, []))[0].l == 3;
  }
}
