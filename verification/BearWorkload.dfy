/** The BEAR-B workload: one branch that ingests the window's first version and then one transition
    per version, and the membership facts asked of its history. */
module BearWorkload {
  import opened Basics
  import opened Wire
  import opened Lineage
  import opened Chunking


  // ---- listing a set in order --------------------------------------------------------------------------

  predicate IsLeast(s: set<Quad>, m: Quad) {
    m in s && forall x :: x in s ==> x == m || Less(m, x)
  }

  lemma {:induction false} LeastExists(s: set<Quad>)
    requires s != {}
    ensures exists m :: IsLeast(s, m)
  {
    assert (forall x :: x !in s) ==> s == {};
    var y :| y in s;
    var rest := s - {y};
    assert forall x :: x in s ==> x == y || x in rest;
    if rest == {} {
      assert IsLeast(s, y);
    } else {
      LeastExists(rest);
      var m :| IsLeast(rest, m);
      LessIsTotal(m, y);
      if Less(m, y) {
        assert IsLeast(s, m);
      } else {
        forall x | x in s ensures x == y || Less(y, x) {
          if x != y && x != m { LessIsTransitive(y, m, x); }
        }
        assert IsLeast(s, y);
      }
    }
  }

  lemma LeastIsUnique(s: set<Quad>)
    ensures forall a, b :: IsLeast(s, a) && IsLeast(s, b) ==> a == b
  {
    forall a, b | IsLeast(s, a) && IsLeast(s, b) ensures a == b { LessIsTotal(a, b); }
  }

  /** A set's members in ascending order, as an ordered set iterates. */
  function Listing(s: set<Quad>): (r: seq<Quad>)
    ensures Members(r) == s && (r == [] <==> s == {})
  {
    if s == {} then []
    else
      LeastExists(s);
      LeastIsUnique(s);
      var m :| IsLeast(s, m);
      var rest := Listing(s - {m});
      assert Members([m] + rest) == {m} + Members(rest);
      [m] + rest
  }

  lemma {:induction false} ListingIsSorted(s: set<Quad>)
    ensures Ascending(Listing(s)) && |Listing(s)| == |s|
  {
    if s != {} {
      LeastExists(s);
      LeastIsUnique(s);
      var m :| IsLeast(s, m);
      ListingIsSorted(s - {m});
      var rest := Listing(s - {m});
      assert Listing(s) == [m] + rest;
      forall i | 0 <= i < |rest| ensures Less(m, rest[i]) { assert rest[i] in Members(rest); }
    }
  }

  // ---- commits -----------------------------------------------------------------------------------------------

  /** `v<k>` closes a version; `v<k>.<i>` is one of its earlier parts. */
  datatype Label = Version(v: nat) | Part(v: nat, i: nat)

  datatype Entry = Entry(name: Label, parent: Option<Label>, chunk: Chunk, depth: nat, foldOps: nat, state: set<Quad>)

  /** Transition 0 loads the base; transition `k` is step `k - 1`. */
  function Transition(p: Prepared, k: nat): Step
    requires k <= |p.steps|
  {
    if k == 0 then Step({}, p.base) else p.steps[k - 1]
  }

  predicate Busy(p: Prepared, k: nat)
    requires k <= |p.steps|
  {
    Transition(p, k).dels != {} || Transition(p, k).adds != {}
  }

  /** The version labels that commits end up carrying after `n` transitions. */
  function Boundaries(p: Prepared, n: nat): seq<Label>
    requires n <= |p.steps| + 1
  {
    if n == 0 then [] else Boundaries(p, n - 1) + if Busy(p, n - 1) then [Version(p.start + n - 1)] else []
  }

  function Versions(p: Prepared, n: nat): seq<Label> {
    seq(n, i requires 0 <= i < n => Version(p.start + i))
  }

  /** An entry continues the one before it. */
  predicate Continues(before: Option<Entry>, e: Entry) {
    var s := if before.None? then {} else before.value.state;
    && ChunkOk(e.chunk) && e.state == ApplyChunk(s, e.chunk)
    && e.parent == (if before.None? then None else Some(before.value.name))
    && e.depth == (if before.None? then 0 else before.value.depth + 1)
    && e.foldOps == (if before.None? then 0 else before.value.foldOps) + Size(e.chunk)
  }

  predicate EntryOk(p: Prepared, es: seq<Entry>, i: nat)
    requires i < |es|
  {
    && Continues(if i == 0 then None else Some(es[i - 1]), es[i])
    && p.start <= es[i].name.v <= p.start + |p.steps|
    && (es[i].name.Version? ==> es[i].state == VersionState(p, es[i].name.v - p.start))
  }

  ghost predicate EntriesOk(p: Prepared, es: seq<Entry>) {
    forall i: nat {:trigger EntryOk(p, es, i)} :: i < |es| ==> EntryOk(p, es, i)
  }

  function LastState(es: seq<Entry>): set<Quad> {
    if es == [] then {} else es[|es| - 1].state
  }

  /** Every label is new: later versions, or later parts of the same one. */
  predicate Before(a: Label, b: Label) {
    a.v < b.v || (a.v == b.v && a.Part? && (b.Version? || a.i < b.i))
  }

  predicate Ordered(es: seq<Entry>) {
    forall i, j :: 0 <= i < j < |es| ==> Before(es[i].name, es[j].name)
  }

  lemma EntriesGrow(p: Prepared, es: seq<Entry>, e: Entry)
    requires EntriesOk(p, es) && EntryOk(p, es + [e], |es|)
    ensures EntriesOk(p, es + [e])
  {
    forall i: nat | i < |es + [e]| ensures EntryOk(p, es + [e], i) {
      if i < |es| { assert EntryOk(p, es, i); }
    }
  }

  lemma OrderGrows(es: seq<Entry>, e: Entry)
    requires Ordered(es) && (es != [] ==> Before(es[|es| - 1].name, e.name))
    ensures Ordered(es + [e])
  {
  }

  /** The state a transition starts from. */
  function Prior(p: Prepared, k: nat): set<Quad>
    requires k <= |p.steps|
  {
    if k == 0 then {} else VersionState(p, k - 1)
  }

  lemma {:induction false} SplitsAreBusy(cs: seq<Chunk>)
    requires forall i :: 0 <= i < |cs| ==> ChunkOk(cs[i])
    ensures cs != [] ==> Dels(cs) != [] || Adds(cs) != []
  {
    if cs != [] { assert ChunkOk(cs[|cs| - 1]); }
  }

  lemma PartsMakeTheVersion(p: Prepared, k: nat, parts: seq<Chunk>)
    requires k <= |p.steps| && Splits(parts, Listing(Transition(p, k).dels), Listing(Transition(p, k).adds))
    ensures ApplyAll(Prior(p, k), parts) == VersionState(p, k)
    ensures parts == [] <==> !Busy(p, k)
  {
    ChunksApplyTheTransition(Prior(p, k), parts);
    SplitsAreBusy(parts);
  }

  function NameOf(p: Prepared, k: nat, i: nat, n: nat): Label {
    if i + 1 == n then Version(p.start + k) else Part(p.start + k, i + 1)
  }

  /** Where a transition's commits stand after `i` of its parts. */
  ghost predicate Ingested(p: Prepared, k: nat, es: seq<Entry>, parts: seq<Chunk>, i: nat) {
    && k <= |p.steps| && i <= |parts|
    && EntriesOk(p, es) && Ordered(es) && LastState(es) == ApplyAll(Prior(p, k), parts[..i])
    && (es != [] && i == 0 ==> es[|es| - 1].name.v < p.start + k)
    && (i > 0 ==> es != [] && es[|es| - 1].name == NameOf(p, k, i - 1, |parts|))
  }

  function NextEntry(es: seq<Entry>, name: Label, c: Chunk): Entry {
    if es == [] then Entry(name, None, c, 0, Size(c), ApplyChunk({}, c))
    else
      var last := es[|es| - 1];
      Entry(name, Some(last.name), c, last.depth + 1, last.foldOps + Size(c), ApplyChunk(last.state, c))
  }

  lemma IngestOne(p: Prepared, k: nat, es: seq<Entry>, parts: seq<Chunk>, i: nat)
    requires Ingested(p, k, es, parts, i) && i < |parts| && ChunkOk(parts[i])
      && ApplyAll(Prior(p, k), parts) == VersionState(p, k)
    ensures Ingested(p, k, es + [NextEntry(es, NameOf(p, k, i, |parts|), parts[i])], parts, i + 1)
  {
    var e := NextEntry(es, NameOf(p, k, i, |parts|), parts[i]);
    NextState(p, k, es, parts, i);
    EntriesGrow(p, es, e);
    assert es != [] ==> Before(es[|es| - 1].name, e.name);
    OrderGrows(es, e);
    assert LastState(es + [e]) == e.state;
  }

  lemma NextState(p: Prepared, k: nat, es: seq<Entry>, parts: seq<Chunk>, i: nat)
    requires k <= |p.steps| && i < |parts| && LastState(es) == ApplyAll(Prior(p, k), parts[..i])
    requires ChunkOk(parts[i]) && ApplyAll(Prior(p, k), parts) == VersionState(p, k)
    ensures
      var e := NextEntry(es, NameOf(p, k, i, |parts|), parts[i]);
      e.state == ApplyAll(Prior(p, k), parts[..i + 1]) && EntryOk(p, es + [e], |es|)
  {
    assert parts[..i + 1][..i] == parts[..i];
    assert i + 1 == |parts| ==> parts[..i + 1] == parts;
  }

  /** One transition: its chunks in order; the last one carries the version label. */
  method Ingest(p: Prepared, k: nat, es: seq<Entry>) returns (out: seq<Entry>, boundary: bool, ghost parts: seq<Chunk>)
    requires Ingested(p, k, es, [], 0)
    ensures EntriesOk(p, out) && Ordered(out) && LastState(out) == VersionState(p, k)
    ensures boundary <==> Busy(p, k)
    ensures boundary ==> out != [] && out[|out| - 1].name == Version(p.start + k)
    ensures !boundary ==> out == es
    ensures es <= out && CommitsOf(p, k, out[|es|..], parts)
    ensures Splits(parts, Listing(Transition(p, k).dels), Listing(Transition(p, k).adds))
  {
    var chunks := Chunks(Listing(Transition(p, k).dels), Listing(Transition(p, k).adds));
    parts := chunks;
    PartsMakeTheVersion(p, k, chunks);
    assert chunks[..0] == [];
    out := IngestParts(p, k, es, chunks);
    assert chunks[..|chunks|] == chunks;
    boundary := chunks != [];
  }

  /** One commit per part, in order: `v<k>.1`, `v<k>.2`, and so on, the last one `v<k>`. */
  predicate CommitsOf(p: Prepared, k: nat, es: seq<Entry>, parts: seq<Chunk>) {
    && |es| == |parts|
    && forall i :: 0 <= i < |es| ==>
      && es[i].chunk == parts[i]
      && es[i].name == if i == |parts| - 1 then Version(p.start + k) else Part(p.start + k, i + 1)
  }

  predicate Named(p: Prepared, k: nat, made: seq<Entry>, parts: seq<Chunk>) {
    |made| <= |parts| && forall i :: 0 <= i < |made| ==>
      made[i].chunk == parts[i] && made[i].name == NameOf(p, k, i, |parts|)
  }

  lemma NamedGrows(p: Prepared, k: nat, es: seq<Entry>, made: seq<Entry>, parts: seq<Chunk>, e: Entry)
    requires Named(p, k, made, parts) && |made| < |parts|
    requires e.chunk == parts[|made|] && e.name == NameOf(p, k, |made|, |parts|)
    ensures Named(p, k, made + [e], parts) && (es + made) + [e] == es + (made + [e])
  {
  }

  lemma NamedIsAll(p: Prepared, k: nat, es: seq<Entry>, made: seq<Entry>, parts: seq<Chunk>)
    requires Named(p, k, made, parts) && |made| == |parts|
    ensures CommitsOf(p, k, (es + made)[|es|..], parts) && es <= es + made && (parts == [] ==> es + made == es)
  {
    assert (es + made)[|es|..] == made;
  }

  lemma NextIsNamed(p: Prepared, k: nat, es: seq<Entry>, parts: seq<Chunk>, i: nat)
    requires i < |parts|
    ensures
      var e := NextEntry(es, NameOf(p, k, i, |parts|), parts[i]);
      e.chunk == parts[i] && e.name == NameOf(p, k, i, |parts|)
  {
  }

  method IngestParts(p: Prepared, k: nat, es: seq<Entry>, parts: seq<Chunk>) returns (out: seq<Entry>)
    requires Ingested(p, k, es, parts, 0) && ApplyAll(Prior(p, k), parts) == VersionState(p, k)
    requires forall i :: 0 <= i < |parts| ==> ChunkOk(parts[i])
    ensures Ingested(p, k, out, parts, |parts|) && es <= out && (parts == [] ==> out == es)
    ensures CommitsOf(p, k, out[|es|..], parts)
  {
    out := es;
    ghost var made: seq<Entry> := [];
    for i := 0 to |parts|
      invariant Ingested(p, k, out, parts, i) && out == es + made && |made| == i && Named(p, k, made, parts)
    {
      IngestOne(p, k, out, parts, i);
      var e := NextEntry(out, NameOf(p, k, i, |parts|), parts[i]);
      NextIsNamed(p, k, out, parts, i);
      NamedGrows(p, k, es, made, parts, e);
      out, made := out + [e], made + [e];
    }
    NamedIsAll(p, k, es, made, parts);
  }

  /** The commits of the whole window and the labels of its version boundaries: every entry is
      within bounds and continues the one before, no label repeats, every boundary entry holds its
      source version, and the boundaries are those of the non-empty transitions. */
  method Workload(p: Prepared) returns (es: seq<Entry>, versions: seq<Label>)
    ensures EntriesOk(p, es) && Ordered(es) && LastState(es) == VersionState(p, |p.steps|)
    ensures versions == Boundaries(p, |p.steps| + 1)
    ensures forall l :: l in versions ==> exists i :: 0 <= i < |es| && es[i].name == l
  {
    es, versions := [], [];
    for k := 0 to |p.steps| + 1
      invariant k <= |p.steps| ==> Ingested(p, k, es, [], 0)
      invariant k == |p.steps| + 1 ==> EntriesOk(p, es) && Ordered(es) && LastState(es) == VersionState(p, |p.steps|)
      invariant versions == Boundaries(p, k)
      invariant forall l :: l in versions ==> exists i :: 0 <= i < |es| && es[i].name == l
    {
      var boundary;
      ghost var before, parts := es, [];
      es, boundary, parts := Ingest(p, k, es);
      assert forall i :: 0 <= i < |before| ==> es[i] == before[i];
      if boundary { versions := versions + [Version(p.start + k)]; }
    }
  }

  // ---- when the labels are the versions ------------------------------------------------------------------

  lemma {:induction false} FewBoundaries(p: Prepared, n: nat)
    requires n <= |p.steps| + 1
    ensures |Boundaries(p, n)| <= n
    ensures |Boundaries(p, n)| == n <==> forall k :: 0 <= k < n ==> Busy(p, k)
    ensures |Boundaries(p, n)| == n ==> Boundaries(p, n) == Versions(p, n)
  {
    if n > 0 {
      FewBoundaries(p, n - 1);
    }
  }

  /** The boundary labels are one per source version exactly when no transition is empty. */
  lemma BoundariesAreTheVersions(p: Prepared)
    ensures Boundaries(p, |p.steps| + 1) == Versions(p, |p.steps| + 1) <==>
      forall k :: 0 <= k <= |p.steps| ==> Busy(p, k)
  {
    FewBoundaries(p, |p.steps| + 1);
  }

  /** An empty transition leaves no commit and the labels after it shift: the second label here is
      version 2, whose state differs from that of version 1. */
  lemma AnEmptyTransitionShiftsTheLabels(a: Quad, b: Quad)
    requires a != b
    ensures
      var p := Prepared(0, {a}, [Step({}, {}), Step({}, {b})]);
      Boundaries(p, 3) == [Version(0), Version(2)] && VersionState(p, 1) != VersionState(p, 2)
  {
    var p := Prepared(0, {a}, [Step({}, {}), Step({}, {b})]);
    assert VersionState(p, 0) == {a} && VersionState(p, 1) == {a};
    assert b in VersionState(p, 2) && b !in VersionState(p, 1);
    assert Boundaries(p, 1) == [Version(0)] && Boundaries(p, 2) == [Version(0)];
  }
}
