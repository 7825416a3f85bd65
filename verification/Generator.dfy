/** The benchmark's workload generator: an append-only commit graph with branch heads, retained
    states and memoised ancestor sets, and the merges it plays against its own history. */
module Generator {
  import opened Basics
  import opened Dag
  import opened CommonAncestors
  import opened ThreeWay
  import opened History
  import opened Previews

  const BULK_ADDS := 5000

  type Heads = map<string, Head>
  type Memo = map<Label, set<Label>>

  // ---- what every step keeps -------------------------------------------------------------------

  /** Each branch head is a recorded commit with its recorded state. */
  predicate HeadOk(heads: Heads, counters: map<string, nat>, e: Record, b: string) {
    b in heads && b in counters && heads[b].commit in e && heads[b].state == e[heads[b].commit].content
  }

  ghost predicate HeadsOk(heads: Heads, counters: map<string, nat>, e: Record) {
    forall b {:trigger HeadOk(heads, counters, e, b)} :: b in heads ==> HeadOk(heads, counters, e, b)
  }

  predicate KeptOk(retained: Retained, e: Record, l: Label) {
    l in retained && l in e && retained[l] == e[l].content
  }

  ghost predicate RetainedOk(retained: Retained, e: Record) {
    forall l {:trigger KeptOk(retained, e, l)} :: l in retained ==> KeptOk(retained, e, l)
  }

  /** Labels in use never exceed the counters, so the next label is new. */
  predicate NameOk(l: Label, counters: map<string, nat>, merges: nat) {
    match l
    case Bulk(i) => true
    case Numbered(b, n) => b in counters && n <= counters[b]
    case Merge(k) => k <= merges
  }

  ghost predicate NamesOk(order: seq<Label>, counters: map<string, nat>, merges: nat) {
    forall l {:trigger NameOk(l, counters, merges)} :: l in order ==> NameOk(l, counters, merges)
  }

  ghost predicate MemoEntry(p: Parents<Label>, memo: Memo, l: Label) {
    l in memo && l in p && memo[l] == ReachSet(p, l)
  }

  /** A memoised ancestor set is the set of commits reachable from its label. */
  ghost predicate MemoOk(p: Parents<Label>, memo: Memo) {
    forall l {:trigger MemoEntry(p, memo, l)} :: l in memo ==> MemoEntry(p, memo, l)
  }

  lemma MemoStays(order: seq<Label>, p: Parents<Label>, memo: Memo, l: Label, ps: seq<Label>)
    requires Rooted(order, p) && MemoOk(p, memo) && l !in order
    ensures MemoOk(p[l := ps], memo)
  {
    forall k | k in memo ensures MemoEntry(p[l := ps], memo, k) {
      assert MemoEntry(p, memo, k);
      assert k in Commits(order);
      forall c ensures c in ReachSet(p[l := ps], k) <==> c in ReachSet(p, k) {
        OldReachIsStable(order, p, l, ps, k, c);
      }
    }
  }

  lemma HeadsStay(heads: Heads, counters: map<string, nat>, e: Record, l: Label, x: Expected)
    requires HeadsOk(heads, counters, e) && l !in e
    ensures HeadsOk(heads, counters, e[l := x])
  {
    forall b | b in heads ensures HeadOk(heads, counters, e[l := x], b) { assert HeadOk(heads, counters, e, b); }
  }

  lemma RetainedStay(retained: Retained, e: Record, l: Label, x: Expected)
    requires RetainedOk(retained, e) && l !in e
    ensures RetainedOk(retained, e[l := x]) && RetainedOk(retained[l := x.content], e[l := x])
  {
    forall k | k in retained ensures KeptOk(retained, e[l := x], k) { assert KeptOk(retained, e, k); }
    var more := retained[l := x.content];
    forall k | k in more ensures KeptOk(more, e[l := x], k) {
      if k != l { assert KeptOk(retained, e, k); }
    }
  }

  /** The generator's whole state as a value. */
  datatype Books = Books(order: seq<Label>, parents: Parents<Label>, expected: Record, patches: Patches,
                         heads: Heads, counters: map<string, nat>, retained: Retained, planRetain: set<Label>,
                         ancestors: Memo, merges: nat)

  ghost predicate BooksOk(b: Books) {
    && Rooted(b.order, b.parents) && Recorded(b.parents, b.expected, b.patches)
    && HeadsOk(b.heads, b.counters, b.expected) && RetainedOk(b.retained, b.expected)
    && NamesOk(b.order, b.counters, b.merges) && MemoOk(b.parents, b.ancestors)
  }

  // ---- recording a commit ----------------------------------------------------------------------

  predicate Recordable(b: Books, l: Label, ps: seq<Label>, patch: Patch) {
    && l !in b.order && NameOk(l, b.counters, b.merges)
    && ps != [] && (forall q :: q in ps ==> q in b.parents) && ps[0] in b.expected
    && Fits(patch, b.expected[ps[0]].content)
  }

  function NewEntry(first: Expected, ps: seq<Label>, patch: Patch): Expected {
    Expected(ps, first.depth + 1, first.foldOps + Size(patch), Apply(first.content, patch))
  }

  function RecordIn(b: Books, l: Label, ps: seq<Label>, patch: Patch): Books
    requires ps != [] && ps[0] in b.expected
  {
    var entry := NewEntry(b.expected[ps[0]], ps, patch);
    b.(order := b.order + [l], parents := b.parents[l := ps], expected := b.expected[l := entry],
       patches := b.patches[l := patch],
       retained := if l in b.planRetain then b.retained[l := entry.content] else b.retained)
  }

  lemma RecordedBooks(b: Books, l: Label, ps: seq<Label>, patch: Patch)
    requires BooksOk(b) && Recordable(b, l, ps, patch)
    ensures BooksOk(RecordIn(b, l, ps, patch)) && l !in b.expected
  {
    assert l !in Commits(b.order);
    var x := NewEntry(b.expected[ps[0]], ps, patch);
    RecordKeeps(b.order, b.parents, b.expected, b.patches, l, x, patch);
    MemoStays(b.order, b.parents, b.ancestors, l, ps);
    HeadsStay(b.heads, b.counters, b.expected, l, x);
    RetainedStay(b.retained, b.expected, l, x);
  }

  // ---- a commit on a branch -----------------------------------------------------------------------

  /** Refused when empty, or when it deletes what is absent or adds what is present. */
  predicate Committable(b: Books, branch: string, patch: Patch) {
    && branch in b.heads && branch in b.counters && b.heads[branch].commit in b.expected
    && patch.adds + patch.deletes != {} && Fits(patch, b.heads[branch].state)
  }

  function NextLabel(b: Books, branch: string): Label
    requires branch in b.counters
  {
    Numbered(branch, b.counters[branch] + 1)
  }

  /** Count the commit and plan to retain it if it is a sampled one. */
  function Counted(b: Books, branch: string, sampleEvery: nat): Books
    requires branch in b.counters && sampleEvery > 0
  {
    var n := b.counters[branch] + 1;
    b.(counters := b.counters[branch := n],
       planRetain := if n % sampleEvery == 0 then b.planRetain + {NextLabel(b, branch)} else b.planRetain)
  }

  function CommitIn(b: Books, branch: string, patch: Patch, sampleEvery: nat): Books
    requires branch in b.counters && branch in b.heads && b.heads[branch].commit in b.expected && sampleEvery > 0
  {
    var l := NextLabel(b, branch);
    var c := RecordIn(Counted(b, branch, sampleEvery), l, [b.heads[branch].commit], patch);
    c.(heads := c.heads[branch := Head(l, Apply(b.heads[branch].state, patch))])
  }

  lemma CountedBooks(b: Books, branch: string, sampleEvery: nat)
    requires BooksOk(b) && branch in b.counters && sampleEvery > 0
    ensures BooksOk(Counted(b, branch, sampleEvery)) && NextLabel(b, branch) !in b.order
    ensures NameOk(NextLabel(b, branch), Counted(b, branch, sampleEvery).counters, b.merges)
  {
    var c := Counted(b, branch, sampleEvery);
    forall l | l in b.order ensures NameOk(l, c.counters, c.merges) && l != NextLabel(b, branch) {
      assert NameOk(l, b.counters, b.merges);
    }
    forall k | k in b.heads ensures HeadOk(c.heads, c.counters, c.expected, k) {
      assert HeadOk(b.heads, b.counters, b.expected, k);
    }
  }

  /** Moving a head to a recorded commit. */
  lemma MoveHead(b: Books, branch: string, l: Label)
    requires BooksOk(b) && branch in b.counters && l in b.expected
    ensures BooksOk(b.(heads := b.heads[branch := Head(l, b.expected[l].content)]))
  {
    var heads := b.heads[branch := Head(l, b.expected[l].content)];
    forall k | k in heads ensures HeadOk(heads, b.counters, b.expected, k) {
      if k != branch { assert HeadOk(b.heads, b.counters, b.expected, k); }
    }
  }

  /** A commit keeps the books: its label is new, its head is recorded, its patch replays. */
  lemma CommittedBooks(b: Books, branch: string, patch: Patch, sampleEvery: nat)
    requires BooksOk(b) && Committable(b, branch, patch) && sampleEvery > 0
    ensures BooksOk(CommitIn(b, branch, patch, sampleEvery)) && NextLabel(b, branch) !in b.expected
  {
    CountedBooks(b, branch, sampleEvery);
    var h := b.heads[branch].commit;
    assert HeadOk(b.heads, b.counters, b.expected, branch);
    assert h in b.parents;
    RecordedBooks(Counted(b, branch, sampleEvery), NextLabel(b, branch), [h], patch);
    MoveHead(RecordIn(Counted(b, branch, sampleEvery), NextLabel(b, branch), [h], patch), branch, NextLabel(b, branch));
  }

  // ---- ancestors -----------------------------------------------------------------------------------

  /** Equal but for the memoised ancestor sets, which a query may fill in. */
  predicate SameButMemo(b: Books, c: Books) {
    c == b.(ancestors := c.ancestors)
  }

  lemma MemoGrows(b: Books, l: Label)
    requires BooksOk(b) && l in b.parents
    ensures BooksOk(b.(ancestors := b.ancestors[l := ReachSet(b.parents, l)]))
  {
    var memo := b.ancestors[l := ReachSet(b.parents, l)];
    forall k | k in memo ensures MemoEntry(b.parents, memo, k) {
      if k != l { assert MemoEntry(b.parents, b.ancestors, k); }
    }
  }

  /** The loop of `ancestors_of`: a label and what its parents reach. */
  ghost predicate Gathered(p: Parents<Label>, l: Label, ps: seq<Label>, found: set<Label>) {
    forall c :: c in found <==> c == l || exists i :: 0 <= i < |ps| && Reaches(p, ps[i], c)
  }

  lemma GatherOne(p: Parents<Label>, l: Label, ps: seq<Label>, k: nat, found: set<Label>)
    requires k < |ps| && Gathered(p, l, ps[..k], found)
    ensures Gathered(p, l, ps[..k + 1], found + ReachSet(p, ps[k]))
  {
    var less, more := ps[..k], ps[..k + 1];
    assert more == less + [ps[k]];
    forall c ensures (exists i :: 0 <= i < |more| && Reaches(p, more[i], c)) <==>
      (exists i :: 0 <= i < |less| && Reaches(p, less[i], c)) || Reaches(p, ps[k], c)
    {
      if i :| 0 <= i < k && Reaches(p, less[i], c) { assert Reaches(p, more[i], c); }
      if Reaches(p, ps[k], c) { assert Reaches(p, more[k], c); }
    }
  }

  lemma GatheredIsReach(p: Parents<Label>, l: Label, found: set<Label>)
    requires l in p && Gathered(p, l, p[l], found)
    ensures found == ReachSet(p, l)
  {
    forall c ensures c in found <==> Reaches(p, l, c) {
      ReachesUnfold(p, l, c);
      if ReachesProperly(p, l, c) {
        var m :| Edge(p, l, m) && Reaches(p, m, c);
        var i :| 0 <= i < |p[l]| && p[l][i] == m;
      }
      if i :| 0 <= i < |p[l]| && Reaches(p, p[l][i], c) { assert Edge(p, l, p[l][i]); }
    }
  }

  lemma CommonIsKnown(order: seq<Label>, p: Parents<Label>, t: Label, s: Label, common: set<Label>)
    requires Rooted(order, p) && t in order && forall c :: c in common <==> Common(p, t, s, c)
    ensures common <= p.Keys && Sound(p, t)
  {
    ReachesSelf(p, t);
    KnownIsClosed(order, p, t, t);
  }

  /** In a sound history, being properly below another common ancestor is being dominated. */
  lemma DominatedByAnother(p: Parents<Label>, t: Label, s: Label, common: set<Label>, c: Label)
    requires Sound(p, t) && c in common && forall o :: o in common <==> Common(p, t, s, o)
    ensures Dominated(p, t, s, c) <==> exists o :: o in common && o != c && Reaches(p, o, c)
  {
    if Dominated(p, t, s, c) {
      var o :| Common(p, t, s, o) && ReachesProperly(p, o, c);
      ReachesUnfold(p, o, c);
      assert o in common;
    }
    if o :| o in common && o != c && Reaches(p, o, c) {
      ReachesUnfold(p, o, c);
      assert Common(p, t, s, o);
    }
  }

  // ---- branches and merges ---------------------------------------------------------------------------

  /** A branch may start at a retained commit reachable from its source's head. */
  ghost predicate Branchable(b: Books, source: string, from: Label) {
    source in b.heads && Reaches(b.parents, b.heads[source].commit, from) && from in b.retained
  }

  function BranchIn(b: Books, name: string, from: Label): Books
    requires from in b.retained
  {
    b.(counters := if name in b.counters then b.counters else b.counters[name := 0],
       heads := b.heads[name := Head(from, b.retained[from])])
  }

  lemma BranchedBooks(b: Books, name: string, from: Label)
    requires BooksOk(b) && from in b.retained
    ensures BooksOk(BranchIn(b, name, from))
  {
    var c := b.(counters := if name in b.counters then b.counters else b.counters[name := 0]);
    forall l | l in b.order ensures NameOk(l, c.counters, c.merges) { assert NameOk(l, b.counters, b.merges); }
    forall k | k in b.heads ensures HeadOk(c.heads, c.counters, c.expected, k) {
      assert HeadOk(b.heads, b.counters, b.expected, k);
    }
    assert KeptOk(b.retained, b.expected, from);
    MoveHead(c, name, from);
  }

  /** Keep the full state of a recorded commit. */
  function RetainIn(b: Books, h: Head): Books {
    if h.commit in b.retained then b else b.(retained := b.retained[h.commit := h.state])
  }

  lemma RetainedBooks(b: Books, branch: string)
    requires BooksOk(b) && branch in b.heads
    ensures BooksOk(RetainIn(b, b.heads[branch]))
    ensures b.heads[branch].commit in RetainIn(b, b.heads[branch]).retained
  {
    var h := b.heads[branch];
    assert HeadOk(b.heads, b.counters, b.expected, branch);
    var kept := b.retained[h.commit := h.state];
    forall l | l in kept ensures KeptOk(kept, b.expected, l) {
      if l != h.commit { assert KeptOk(b.retained, b.expected, l); }
    }
  }

  /** A merge request is numbered and keeps both heads' states. */
  function Opened(b: Books, target: string, source: string): Books
    requires target in b.heads && source in b.heads
  {
    RetainIn(RetainIn(b.(merges := b.merges + 1), b.heads[target]), b.heads[source])
  }

  lemma NumberKeeps(b: Books)
    requires BooksOk(b)
    ensures BooksOk(b.(merges := b.merges + 1)) && Merge(b.merges + 1) !in b.order
  {
    var c := b.(merges := b.merges + 1);
    forall l | l in b.order ensures NameOk(l, c.counters, c.merges) && l != Merge(b.merges + 1) {
      assert NameOk(l, b.counters, b.merges);
    }
  }

  lemma OpenedBooks(b: Books, target: string, source: string)
    requires BooksOk(b) && target in b.heads && source in b.heads
    ensures BooksOk(Opened(b, target, source)) && Merge(b.merges + 1) !in b.order
    ensures b.heads[source].commit in Opened(b, target, source).retained
  {
    NumberKeeps(b);
    var c := b.(merges := b.merges + 1);
    RetainedBooks(c, target);
    RetainedBooks(RetainIn(c, b.heads[target]), source);
  }

  /** The integration commit of the current merge: both heads as parents, the change from the
      target's state as its patch, retained, and the target's new head. */
  function IntegrateIn(b: Books, target: string, source: string, merged: State): Books
    requires target in b.heads && source in b.heads && b.heads[target].commit in b.expected
  {
    var l := Merge(b.merges);
    var t, s := b.heads[target], b.heads[source];
    var c := RecordIn(b.(planRetain := b.planRetain + {l}), l, [t.commit, s.commit], Change(t.state, merged));
    c.(heads := c.heads[target := Head(l, merged)])
  }

  /** An integration commit keeps the books. */
  lemma IntegratedBooks(b: Books, target: string, source: string, merged: State)
    requires BooksOk(b) && target in b.heads && source in b.heads && Merge(b.merges) !in b.order
    ensures b.heads[target].commit in b.expected
    ensures var l, t, s := Merge(b.merges), b.heads[target], b.heads[source];
      Recordable(b, l, [t.commit, s.commit], Change(t.state, merged)) && b.expected[t.commit].content == t.state
    ensures BooksOk(IntegrateIn(b, target, source, merged))
  {
    var t, s := b.heads[target], b.heads[source];
    assert HeadOk(b.heads, b.counters, b.expected, target) && HeadOk(b.heads, b.counters, b.expected, source);
    var l := Merge(b.merges);
    assert t.commit in b.parents && s.commit in b.parents;
    var c := b.(planRetain := b.planRetain + {l});
    RecordedBooks(c, l, [t.commit, s.commit], Change(t.state, merged));
    MoveHead(RecordIn(c, l, [t.commit, s.commit], Change(t.state, merged)), target, l);
  }

  /** What applying a merge does: the preview yields a candidate and its state is integrated. */
  ghost predicate Applied(b: Books, c: Books, target: string, source: string, q: Request, v: Preview)
    requires target in b.heads && source in b.heads
  {
    Lands(Opened(b, target, source), c, target, source, q, v)
  }

  /** After an applied merge, on every state the generator can be in: the same preview finds the
      source contained; the reverse one is a fast-forward to the integration state with the old
      source head as base, and no change exactly when the two states are equal. */
  lemma AppliedMergeSettles(b: Books, c: Books, target: string, source: string, q: Request, v: Preview, q': Request,
                            again: Result<Preview>, back: Result<Preview>)
    requires BooksOk(b) && target in b.heads && source in b.heads && b.heads[target].commit in b.expected
    requires Applied(b, c, target, source, q, v)
    requires target in c.heads && source in c.heads
    requires PreviewOk(c.parents, c.retained, c.heads[target], c.heads[source], q', again)
    requires PreviewOk(c.parents, c.retained, c.heads[source], c.heads[target], q', back)
    ensures again.Ok? && again.value.kind == AlreadyContained
    ensures back.Ok? <==> q'.designed == {}
    ensures back.Ok? ==>
      && back.value.base == Some(b.heads[source].commit) && back.value.conflicts == 0
      && back.value.merged == Some(c.heads[target].state)
      && back.value.kind == if c.heads[target].state == c.heads[source].state then NoChange else FastForward
  {
    var t, s, l := b.heads[target].commit, b.heads[source], Merge(b.merges + 1);
    OpenedKeepsSource(b, target, source);
    IntegrationFacts(b, Opened(b, target, source), c, target, source, v.merged.value);
    SecondPreviewIsContained(b.order, b.parents, c.retained, l, t, s, v.merged.value, q', again);
    ReversePreviewFastForwards(b.order, b.parents, c.retained, l, t, s, v.merged.value, q', back);
  }

  /** Where an applied merge leaves the two heads. */
  lemma IntegrationFacts(b: Books, o: Books, c: Books, target: string, source: string, merged: State)
    requires BooksOk(b) && target in b.heads && source in b.heads && OpenedFrom(b, o, b.heads[source])
    requires o.heads[target].commit in o.expected && o.heads[target].commit != o.heads[source].commit
    requires SameButMemo(IntegrateIn(o, target, source, merged), c)
    ensures
      var l, t, s := Merge(b.merges + 1), b.heads[target], b.heads[source];
      && l !in b.order && t.commit in b.order && s.commit in b.order
      && target in c.heads && source in c.heads && c.heads[target] == Head(l, merged) && c.heads[source] == s
      && c.parents == Integrated(b.parents, l, t.commit, s.commit)
      && s.commit in c.retained && c.retained[s.commit] == s.state
  {
    HeadsAreRecorded(b, target);
    HeadsAreRecorded(b, source);
    IntegrationMovesTheTarget(o, c, target, source, merged);
  }

  lemma HeadsAreRecorded(b: Books, name: string)
    requires BooksOk(b) && name in b.heads
    ensures b.heads[name].commit in b.order
  {
    assert HeadOk(b.heads, b.counters, b.expected, name);
    assert b.heads[name].commit in Commits(b.order);
  }

  /** On every state the generator can be in, two heads have a best common ancestor: the preview's
      search for a base never comes back empty. */
  lemma HeadsAreRelated(b: Books, x: string, y: string) returns (base: Label)
    requires BooksOk(b) && x in b.heads && y in b.heads
    ensures Best(b.parents, b.heads[x].commit, b.heads[y].commit, base)
  {
    HeadsAreRecorded(b, x);
    HeadsAreRecorded(b, y);
    base := HistoriesAreRelated(b.order, b.parents, b.heads[x].commit, b.heads[y].commit);
  }

  /** Folding the patches of a head's parent-0 chain, integration commits included, gives the state
      the generator holds for that head. */
  lemma HeadReplays(b: Books, name: string, chain: seq<Label>)
    requires BooksOk(b) && name in b.heads && IsChain(b.parents, chain) && chain[0] == b.heads[name].commit
    ensures (forall l :: l in chain ==> l in b.patches) && Replay(b.patches, chain) == b.heads[name].state
    ensures chain[0] in b.expected && b.expected[chain[0]].depth == |chain| - 1
    ensures b.expected[chain[0]].foldOps == TotalOps(b.patches, chain)
  {
    assert HeadOk(b.heads, b.counters, b.expected, name);
    ReplayGivesTheState(b.parents, b.expected, b.patches, chain);
  }

  lemma IntegrationMovesTheTarget(o: Books, c: Books, target: string, source: string, merged: State)
    requires target in o.heads && source in o.heads && o.heads[target].commit in o.expected
    requires o.heads[target].commit != o.heads[source].commit
    requires SameButMemo(IntegrateIn(o, target, source, merged), c)
    ensures
      var l, t, s := Merge(o.merges), o.heads[target], o.heads[source];
      && target in c.heads && source in c.heads && c.heads[target] == Head(l, merged) && c.heads[source] == s
      && c.parents == Integrated(o.parents, l, t.commit, s.commit)
      && (s.commit != l && s.commit in o.retained ==>
            s.commit in c.retained && c.retained[s.commit] == o.retained[s.commit])
  {
  }

  /** Opening a request moves no head; it only numbers the request and keeps states. */
  predicate OpenedFrom(b: Books, o: Books, s: Head) {
    && o.heads == b.heads && o.parents == b.parents && o.merges == b.merges + 1 && Merge(o.merges) !in b.order
    && s.commit in o.retained && o.retained[s.commit] == s.state
  }

  lemma OpenedKeepsSource(b: Books, target: string, source: string)
    requires BooksOk(b) && target in b.heads && source in b.heads
    ensures OpenedFrom(b, Opened(b, target, source), b.heads[source])
  {
    OpenedBooks(b, target, source);
    var o := Opened(b, target, source);
    assert HeadOk(b.heads, b.counters, b.expected, source);
    assert KeptOk(o.retained, o.expected, b.heads[source].commit);
  }

  // ---- the initial load ------------------------------------------------------------------------------

  function Stmts(all: seq<Stmt>): State {
    set q | q in all
  }

  /** The books after the first bulk commit. */
  function RootBooks(l: Label, state: State): Books {
    var patch := Patch(state, {});
    Books([l], map[l := []], map[l := Expected([], 0, Size(patch), state)], map[l := patch],
          map[], map["main" := 0], map[l := state], {l}, map[], 0)
  }

  lemma RootBooksOk(l: Label, state: State)
    requires NameOk(l, map["main" := 0], 0)
    ensures BooksOk(RootBooks(l, state))
  {
    RootKeeps(l, Patch(state, {}));
  }

  /** The label of the bulk commit that loads up to statement `end`. */
  function BulkLabel(all: seq<Stmt>, end: nat, i: nat): Label {
    if end == |all| then Numbered("main", 0) else Bulk(i)
  }

  predicate BulkName(all: seq<Stmt>, end: nat, i: nat, l: Label) {
    (l.Bulk? && l.i <= i) || (l == Numbered("main", 0) && end == |all|)
  }

  lemma ChunkSplits(all: seq<Stmt>, end: nat, next: nat)
    requires end <= next <= |all| && NoDuplicates(all)
    ensures Stmts(all[..end]) + Stmts(all[end..next]) == Stmts(all[..next])
    ensures Stmts(all[..end]) !! Stmts(all[end..next])
  {
    assert all[..next] == all[..end] + all[end..next];
  }

  /** The load so far: `i` bulk commits in a row, the last one holding the first `end` statements. */
  ghost predicate Loading(b: Books, all: seq<Stmt>, end: nat, i: nat) {
    BooksOk(b) && Loaded(b, all, end, i) && Bulky(b, all, end, i)
  }

  ghost predicate Loaded(b: Books, all: seq<Stmt>, end: nat, i: nat) {
    && end <= |all| && |b.order| == i && i >= 1
    && b.order[i - 1] == BulkLabel(all, end, i) && b.order[i - 1] in b.expected
    && b.expected[b.order[i - 1]].content == Stmts(all[..end])
    && (forall l {:trigger BulkName(all, end, i, l)} :: l in b.order ==> BulkName(all, end, i, l))
    && b.heads == map[] && "main" in b.counters && b.counters["main"] == 0
  }

  /** Every bulk commit so far is full but the last. */
  predicate Bulky(b: Books, all: seq<Stmt>, end: nat, i: nat) {
    i >= 1 && (i - 1) * 5000 < |all| && end == Bound(all, i) && forall l :: l in b.patches ==> BulkPatch(b.patches[l])
  }

  /** How many statements `i` full bulk commits hold. */
  function Bound(all: seq<Stmt>, i: nat): nat { if i * 5000 < |all| then i * 5000 else |all| }

  /** A bulk commit only adds, at least one and at most 5000 statements. */
  predicate BulkPatch(patch: Patch) { patch.deletes == {} && 1 <= |patch.adds| <= 5000 }

  lemma ChunkIsBulk(all: seq<Stmt>, end: nat, next: nat)
    requires end < next <= |all| && next - end <= 5000
    ensures BulkPatch(Patch(Stmts(all[end..next]), {}))
  {
    FewStmts(all[end..next]);
    assert all[end] == all[end..next][0] && all[end] in Stmts(all[end..next]);
  }

  lemma {:induction false} FewStmts(all: seq<Stmt>)
    ensures |Stmts(all)| <= |all|
  {
    if all != [] {
      FewStmts(all[1..]);
      assert Stmts(all) == {all[0]} + Stmts(all[1..]);
    }
  }

  function LoadMore(b: Books, all: seq<Stmt>, end: nat, next: nat, i: nat): Books
    requires end < next <= |all| && |b.order| == i && i >= 1 && b.order[i - 1] in b.expected
  {
    var l := BulkLabel(all, next, i + 1);
    RecordIn(b.(planRetain := b.planRetain + {l}), l, [b.order[i - 1]], Patch(Stmts(all[end..next]), {}))
  }

  lemma NextBulkIsNew(b: Books, all: seq<Stmt>, end: nat, next: nat, i: nat)
    requires Loaded(b, all, end, i) && end < next <= |all|
    ensures
      var l := BulkLabel(all, next, i + 1);
      && l !in b.order && NameOk(l, b.counters, b.merges)
      && forall k {:trigger BulkName(all, next, i + 1, k)} :: k in b.order + [l] ==> BulkName(all, next, i + 1, k)
  {
    var l := BulkLabel(all, next, i + 1);
    forall k | k in b.order ensures BulkName(all, next, i + 1, k) && k != l { assert BulkName(all, end, i, k); }
  }

  lemma ChunkIsRecordable(b: Books, all: seq<Stmt>, end: nat, next: nat, i: nat)
    requires Loading(b, all, end, i) && end < next <= |all| && NoDuplicates(all)
    ensures Recordable(b, BulkLabel(all, next, i + 1), [b.order[i - 1]], Patch(Stmts(all[end..next]), {}))
    ensures Stmts(all[..next]) == Apply(b.expected[b.order[i - 1]].content, Patch(Stmts(all[end..next]), {}))
  {
    ChunkSplits(all, end, next);
    NextBulkIsNew(b, all, end, next, i);
    assert b.order[i - 1] in b.parents;
  }

  lemma LoadedMore(b: Books, all: seq<Stmt>, end: nat, next: nat, i: nat)
    requires Loaded(b, all, end, i) && end < next <= |all| && NoDuplicates(all)
    ensures Loaded(LoadMore(b, all, end, next, i), all, next, i + 1)
  {
    ChunkSplits(all, end, next);
    NextBulkIsNew(b, all, end, next, i);
  }

  lemma BulkyMore(b: Books, all: seq<Stmt>, end: nat, next: nat, i: nat)
    requires Loaded(b, all, end, i) && Bulky(b, all, end, i) && end < next && next == Until(all, end)
    ensures Bulky(LoadMore(b, all, end, next, i), all, next, i + 1)
  {
    ChunkIsBulk(all, end, next);
  }

  lemma BulkIsLoading(l: Label, all: seq<Stmt>, end: nat)
    requires all != [] && end == Until(all, 0) && l == BulkLabel(all, end, 1)
    ensures Loading(RootBooks(l, Stmts(all[..end])), all, end, 1)
  {
    RootBooksOk(l, Stmts(all[..end]));
    ChunkIsBulk(all, 0, end);
    assert all[0..end] == all[..end];
    assert BulkName(all, end, 1, l);
  }

  function Until(all: seq<Stmt>, at: nat): nat {
    if at + BULK_ADDS < |all| then at + BULK_ADDS else |all|
  }

  datatype Choice = Base(base: Label) | Several(best: set<Label>) | BadBase

  ghost predicate ChoiceOk(p: Parents<Label>, t: Label, s: Label, explicit: Option<Label>, c: Choice) {
    match c
    case Base(base) => Chosen(p, t, s, explicit, base)
    case Several(best) =>
      !Reaches(p, s, t) && explicit.None? && |best| >= 2 && forall x :: x in best <==> Best(p, t, s, x)
    case BadBase => !Reaches(p, s, t) && explicit.Some? && !Best(p, t, s, explicit.value)
  }

  /** The preview of a merge whose base is known. */
  method Merged(base: Label, b: State, t: Head, s: Head, q: Request, ff: bool, ahead: nat, behind: nat,
                ghost p: Parents<Label>)
    returns (v: Preview)
    requires q.designed == ConflictSlots(b, t.state, s.state) && (ff <==> Reaches(p, s.commit, t.commit))
    ensures v.base == Some(base) && v.ahead == ahead && v.behind == behind && MergedOk(p, b, t, s, q, v)
  {
    var merged: Option<State> := None;
    if q.designed == {} || q.strategy != Abort {
      var m := OracleMerge(q.strategy, b, t.state, s.state, q.designed);
      merged := Some(m);
    }
    var kind :=
      if merged.None? then Conflicted
      else if merged.value == t.state && b == s.state then NoChange
      else if ff then FastForward
      else Divergent;
    v := Preview(kind, Some(base), ahead, behind, if ff then 0 else |q.designed|, merged);
  }

  /** The preview of a request is refused. */
  ghost predicate Fails(b: Books, target: string, source: string, q: Request, reason: string) {
    && target in b.heads && source in b.heads
    && PreviewOk(b.parents, b.retained, b.heads[target], b.heads[source], q, Err(reason))
  }

  /** Each request has its preview. */
  ghost predicate Previewed(b: Books, target: string, source: string, qs: seq<Request>, vs: seq<Preview>) {
    && target in b.heads && source in b.heads && |vs| == |qs|
    && forall i :: 0 <= i < |qs| ==>
      PreviewOk(b.parents, b.retained, b.heads[target], b.heads[source], qs[i], Ok(vs[i]))
  }

  ghost predicate SomeFails(b: Books, target: string, source: string, qs: seq<Request>, reason: string) {
    exists q :: q in qs && Fails(b, target, source, q, reason)
  }

  /** A preview is refused, or there is nothing to apply. */
  ghost predicate MergeFails(b: Books, target: string, source: string, qs: seq<Request>, apply: Option<Request>,
                             reason: string) {
    || SomeFails(b, target, source, qs, reason)
    || (apply.Some?
        && (Fails(b, target, source, apply.value, reason) || HasNoCandidate(b, target, source, apply.value)))
  }

  /** The preview of a request says there is nothing to integrate. */
  ghost predicate HasNoCandidate(b: Books, target: string, source: string, q: Request) {
    && target in b.heads && source in b.heads
    && exists v ::
         && PreviewOk(b.parents, b.retained, b.heads[target], b.heads[source], q, Ok(v))
         && !v.kind.FastForward? && !v.kind.Divergent?
  }

  /** What previews say does not depend on the memo. */
  lemma PreviewsStay(b: Books, c: Books, target: string, source: string, qs: seq<Request>, vs: seq<Preview>,
                     reason: string)
    requires SameButMemo(b, c)
    ensures Previewed(c, target, source, qs, vs) ==> Previewed(b, target, source, qs, vs)
    ensures SomeFails(c, target, source, qs, reason) ==> SomeFails(b, target, source, qs, reason)
  {
    if SomeFails(c, target, source, qs, reason) {
      var q :| q in qs && Fails(c, target, source, q, reason);
      assert Fails(b, target, source, q, reason);
    }
  }

  lemma PreviewedGrows(b: Books, c: Books, target: string, source: string, qs: seq<Request>, vs: seq<Preview>, i: nat,
                       v: Preview)
    requires SameButMemo(b, c) && i < |qs| && Previewed(b, target, source, qs[..i], vs)
    requires PreviewOk(c.parents, c.retained, c.heads[target], c.heads[source], qs[i], Ok(v))
    ensures Previewed(c, target, source, qs[..i + 1], vs + [v])
  {
    assert qs[..i + 1] == qs[..i] + [qs[i]];
  }

  lemma RefusalStays(b: Books, c: Books, target: string, source: string, q: Request, reason: string)
    requires SameButMemo(b, c)
    requires Fails(c, target, source, q, reason) || HasNoCandidate(c, target, source, q)
    ensures Fails(b, target, source, q, reason) || HasNoCandidate(b, target, source, q)
  {
    if HasNoCandidate(c, target, source, q) {
      var v :| PreviewOk(c.parents, c.retained, c.heads[target], c.heads[source], q, Ok(v))
        && !v.kind.FastForward? && !v.kind.Divergent?;
      assert HasNoCandidate(b, target, source, q);
    }
  }

  /** A preview that yields a candidate, and its state integrated. */
  ghost predicate Lands(b: Books, c: Books, target: string, source: string, q: Request, v: Preview) {
    && target in b.heads && source in b.heads && b.heads[target].commit in b.expected
    && PreviewOk(b.parents, b.retained, b.heads[target], b.heads[source], q, Ok(v))
    && (v.kind.FastForward? || v.kind.Divergent?) && v.merged.Some?
    && SameButMemo(IntegrateIn(b, target, source, v.merged.value), c)
  }

  lemma IntegrationStays(b: Books, m: Books, c: Books, target: string, source: string, q: Request, v: Preview)
    requires SameButMemo(b, m) && Lands(m, c, target, source, q, v)
    ensures Lands(b, c, target, source, q, v)
  {
  }

  class Gen {
    const sampleEvery: nat
    var books: Books

    ghost predicate Valid()
      reads this
    {
      sampleEvery > 0 && BooksOk(books)
    }

    /** The initial load in bulk commits of at most `BULK_ADDS` statements; the last is `main@0`. */
    constructor (all: seq<Stmt>, sampleEvery: nat)
      requires sampleEvery > 0 && all != [] && NoDuplicates(all)
      ensures Valid() && this.sampleEvery == sampleEvery
      ensures books.heads == map["main" := Head(Numbered("main", 0), Stmts(all))]
      ensures forall l :: l in books.patches ==> BulkPatch(books.patches[l])
      ensures (|books.order| - 1) * 5000 < |all| <= |books.order| * 5000
    {
      this.sampleEvery := sampleEvery;
      var end := Until(all, 0);
      var first := BulkLabel(all, end, 1);
      books := RootBooks(first, Stmts(all[..end]));
      new;
      var i := 1;
      BulkIsLoading(first, all, end);
      while end < |all|
        invariant Valid() && Loading(books, all, end, i)
        decreases |all| - end
      {
        LoadChunk(all, end, i);
        end, i := Until(all, end), i + 1;
      }
      assert all[..end] == all;
      MoveHead(books, "main", Numbered("main", 0));
      books := books.(heads := map["main" := Head(Numbered("main", 0), Stmts(all))]);
    }

    method LoadChunk(all: seq<Stmt>, end: nat, i: nat)
      requires Valid() && Loading(books, all, end, i) && end < |all| && NoDuplicates(all)
      modifies this
      ensures Valid() && Loading(books, all, Until(all, end), i + 1)
    {
      var next := Until(all, end);
      ChunkIsRecordable(books, all, end, next, i);
      LoadedMore(books, all, end, next, i);
      BulkyMore(books, all, end, next, i);
      var parent := books.order[i - 1];
      var l := BulkLabel(all, next, i + 1);
      books := books.(planRetain := books.planRetain + {l});
      Record(l, [parent], Patch(Stmts(all[end..next]), {}), Stmts(all[..next]));
    }

    /** Record a new commit whose patch applies to its first parent's state. */
    method Record(l: Label, ps: seq<Label>, patch: Patch, state: State)
      requires Valid() && Recordable(books, l, ps, patch) && state == Apply(books.expected[ps[0]].content, patch)
      modifies this
      ensures Valid() && books == RecordIn(old(books), l, ps, patch)
    {
      RecordedBooks(books, l, ps, patch);
      var first := books.expected[ps[0]];
      var entry := Expected(ps, first.depth + 1, first.foldOps + Size(patch), state);
      assert entry == NewEntry(first, ps, patch);
      var retained := books.retained;
      if l in books.planRetain { retained := retained[l := state]; }
      books := books.(order := books.order + [l], parents := books.parents[l := ps],
                      expected := books.expected[l := entry], patches := books.patches[l := patch],
                      retained := retained);
    }

    method Commit(branch: string, adds: State, deletes: State) returns (r: Result<Label>)
      requires Valid()
      modifies this
      ensures Valid()
      ensures r.Ok? <==> Committable(old(books), branch, Patch(adds, deletes))
      ensures r.Err? ==> books == old(books)
      ensures r.Ok? ==> books == CommitIn(old(books), branch, Patch(adds, deletes), sampleEvery)
      ensures r.Ok? ==> r.value == NextLabel(old(books), branch) && r.value !in old(books).expected
    {
      if branch !in books.heads { return Err("unknown branch"); }
      var Head(parent, state) := books.heads[branch];
      assert adds == {} && deletes == {} <==> adds + deletes == {};
      if adds == {} && deletes == {} { return Err("empty commit"); }
      if !(deletes <= state) { return Err("deletes must exist"); }
      if !(adds !! state) { return Err("adds must be new"); }
      assert HeadOk(books.heads, books.counters, books.expected, branch);
      CommittedBooks(books, branch, Patch(adds, deletes), sampleEvery);
      CountedBooks(books, branch, sampleEvery);
      var next := (state - deletes) + adds;
      var n := books.counters[branch] + 1;
      var l := Numbered(branch, n);
      books := books.(counters := books.counters[branch := n]);
      if n % sampleEvery == 0 { books := books.(planRetain := books.planRetain + {l}); }
      Record(l, [parent], Patch(adds, deletes), next);
      books := books.(heads := books.heads[branch := Head(l, next)]);
      return Ok(l);
    }

    /** The memoised ancestor set, computed from the parents' on a miss. */
    method AncestorsOf(l: Label, ghost at: nat) returns (found: set<Label>)
      requires Valid() && at < |books.order| && books.order[at] == l
      modifies this
      ensures Valid() && SameButMemo(old(books), books)
      ensures found == ReachSet(books.parents, l)
      decreases at
    {
      if l in books.ancestors {
        assert MemoEntry(books.parents, books.ancestors, l);
        return books.ancestors[l];
      }
      assert l in Commits(books.order);
      var ps := books.parents[l];
      found := {l};
      for k := 0 to |ps|
        invariant Valid() && SameButMemo(old(books), books)
        invariant Gathered(books.parents, l, ps[..k], found)
      {
        assert Edge(books.parents, books.order[at], ps[k]);
        ghost var j :| 0 <= j < at && books.order[j] == ps[k];
        var more := AncestorsOf(ps[k], j);
        GatherOne(books.parents, l, ps, k, found);
        found := found + more;
      }
      assert ps[..|ps|] == ps;
      GatheredIsReach(books.parents, l, found);
      MemoGrows(books, l);
      books := books.(ancestors := books.ancestors[l := found]);
    }

    /** Some other common ancestor reaches `c`. */
    method IsDominated(common: set<Label>, c: Label) returns (dominated: bool)
      requires Valid() && common <= books.parents.Keys
      modifies this
      ensures Valid() && SameButMemo(old(books), books)
      ensures dominated <==> exists o :: o in common && o != c && Reaches(books.parents, o, c)
    {
      var left := common;
      dominated := false;
      while left != {} && !dominated
        invariant Valid() && SameButMemo(old(books), books) && left <= common
        invariant dominated ==> exists o :: o in common && o != c && Reaches(books.parents, o, c)
        invariant !dominated ==> forall o :: o in common - left && o != c ==> !Reaches(books.parents, o, c)
        decreases |left|
      {
        assert (forall o :: o !in left) ==> left == {};
        var o :| o in left;
        left := left - {o};
        if o != c {
          assert o in Commits(books.order);
          ghost var j :| 0 <= j < |books.order| && books.order[j] == o;
          var above := AncestorsOf(o, j);
          dominated := c in above;
        }
      }
    }

    /** Every common ancestor that no other one reaches. */
    method BestCommon(t: Label, s: Label, common: set<Label>) returns (best: set<Label>)
      requires Valid() && t in books.order && s in books.order
      requires forall c :: c in common <==> Common(books.parents, t, s, c)
      modifies this
      ensures Valid() && SameButMemo(old(books), books)
      ensures best != {} && forall c :: c in best <==> Best(books.parents, t, s, c)
    {
      ghost var p := books.parents;
      CommonIsKnown(books.order, p, t, s, common);
      var left := common;
      best := {};
      while left != {}
        invariant Valid() && SameButMemo(old(books), books) && left <= common
        invariant forall c :: c in best <==> c in common - left && Best(p, t, s, c)
        decreases |left|
      {
        assert (forall c :: c !in left) ==> left == {};
        var c :| c in left;
        var dominated := IsDominated(common, c);
        DominatedByAnother(p, t, s, common, c);
        left := left - {c};
        if !dominated { best := best + {c}; }
      }
      ghost var some := HistoriesAreRelated(books.order, p, t, s);
      assert some in best;
    }

    method Branch(name: string, source: string, from: Label) returns (r: Result<()>)
      requires Valid()
      modifies this
      ensures Valid()
      ensures r.Ok? <==> Branchable(old(books), source, from)
      ensures r.Ok? ==> SameButMemo(BranchIn(old(books), name, from), books)
      ensures r.Err? ==> SameButMemo(old(books), books)
    {
      if source !in books.heads { return Err("unknown branch"); }
      var head := books.heads[source].commit;
      assert HeadOk(books.heads, books.counters, books.expected, source);
      assert head in Commits(books.order);
      ghost var j :| 0 <= j < |books.order| && books.order[j] == head;
      var reachable := AncestorsOf(head, j);
      if from !in reachable { return Err("branch point is not reachable"); }
      if from !in books.retained { return Err("branch point must be retained"); }
      BranchedBooks(books, name, from);
      var counters := if name in books.counters then books.counters else books.counters[name := 0];
      books := books.(counters := counters, heads := books.heads[name := Head(from, books.retained[from])]);
      return Ok(());
    }

    /** The merge base the oracle uses: the target's head when it is contained, else the best
        common ancestor, the explicit one among several. */
    method ChooseBase(t: Label, s: Label, at: set<Label>, above: set<Label>, explicit: Option<Label>)
      returns (c: Choice)
      requires Valid() && t in books.order && s in books.order
      requires at == ReachSet(books.parents, t) && above == ReachSet(books.parents, s)
      modifies this
      ensures Valid() && SameButMemo(old(books), books)
      ensures ChoiceOk(books.parents, t, s, explicit, c)
    {
      if t in above { return Base(t); }
      var best := BestCommon(t, s, at * above);
      if explicit.Some? {
        return if explicit.value in best then Base(explicit.value) else BadBase;
      }
      if |best| > 1 { return Several(best); }
      assert (forall x :: x !in best) ==> best == {};
      var base :| base in best;
      SingletonMember(best);
      return Base(base);
    }

    /** The oracle's expectation of one preview. */
    method Expect(target: string, source: string, q: Request) returns (r: Result<Preview>)
      requires Valid() && target in books.heads && source in books.heads
      modifies this
      ensures Valid() && SameButMemo(old(books), books)
      ensures PreviewOk(books.parents, books.retained, books.heads[target], books.heads[source], q, r)
    {
      var t, s := books.heads[target], books.heads[source];
      assert HeadOk(books.heads, books.counters, books.expected, target);
      assert HeadOk(books.heads, books.counters, books.expected, source);
      assert t.commit in Commits(books.order) && s.commit in Commits(books.order);
      ghost var i :| 0 <= i < |books.order| && books.order[i] == t.commit;
      ghost var j :| 0 <= j < |books.order| && books.order[j] == s.commit;
      var at := AncestorsOf(t.commit, i);
      var above := AncestorsOf(s.commit, j);
      ReachesSelf(books.parents, t.commit);
      var ahead, behind := |above - at|, |at - above|;
      if t.commit == s.commit { return Ok(Preview(AlreadyEqual, None, ahead, behind, 0, None)); }
      if s.commit in at { return Ok(Preview(AlreadyContained, None, ahead, behind, 0, None)); }
      var choice := ChooseBase(t.commit, s.commit, at, above, q.explicit);
      match choice
      case Several(best) => return Ok(Preview(AmbiguousBase(best), None, ahead, behind, 0, None));
      case BadBase => return Err("explicit base must be a best common ancestor");
      case Base(base) =>
        if base !in books.retained { return Err("merge base must be retained"); }
        var b := books.retained[base];
        if ConflictSlots(b, t.state, s.state) != q.designed {
          return Err("conflicting slots must be exactly the designed ones");
        }
        var v := Merged(base, b, t, s, q, t.commit in above, ahead, behind, books.parents);
        return Ok(v);
    }

    /** Number the request and keep both heads' states. */
    method Open(target: string, source: string)
      requires Valid() && target in books.heads && source in books.heads
      modifies this
      ensures Valid() && books == Opened(old(books), target, source) && Label.Merge(books.merges) !in books.order
    {
      OpenedBooks(books, target, source);
      var b := books.(merges := books.merges + 1);
      var t, s := books.heads[target], books.heads[source];
      if t.commit !in b.retained { b := b.(retained := b.retained[t.commit := t.state]); }
      if s.commit !in b.retained { b := b.(retained := b.retained[s.commit := s.state]); }
      books := b;
    }

    /** The previews of a request, in order, until one fails. */
    method PreviewAll(target: string, source: string, previews: seq<Request>) returns (r: Result<seq<Preview>>)
      requires Valid() && target in books.heads && source in books.heads
      modifies this
      ensures Valid() && SameButMemo(old(books), books)
      ensures r.Ok? ==> Previewed(books, target, source, previews, r.value)
      ensures r.Err? ==> SomeFails(books, target, source, previews, r.reason)
    {
      var expects := [];
      for i := 0 to |previews|
        invariant Valid() && SameButMemo(old(books), books) && |expects| == i
        invariant Previewed(books, target, source, previews[..i], expects)
      {
        ghost var before := books;
        var e := Expect(target, source, previews[i]);
        if e.Err? {
          assert previews[i] in previews && Fails(books, target, source, previews[i], e.reason);
          return Err(e.reason);
        }
        PreviewedGrows(before, books, target, source, previews, expects, i, e.value);
        expects := expects + [e.value];
      }
      assert previews[..|previews|] == previews;
      return Ok(expects);
    }

    /** Apply a request that must yield a candidate. */
    method ApplyMerge(target: string, source: string, q: Request) returns (r: Result<Preview>)
      requires Valid() && target in books.heads && source in books.heads && Label.Merge(books.merges) !in books.order
      modifies this
      ensures Valid()
      ensures r.Err? ==> SameButMemo(old(books), books)
      ensures r.Err? ==>
        Fails(old(books), target, source, q, r.reason) || HasNoCandidate(old(books), target, source, q)
      ensures r.Ok? ==> Lands(old(books), books, target, source, q, r.value)
    {
      r := Expect(target, source, q);
      if r.Err? { return; }
      if !r.value.kind.FastForward? && !r.value.kind.Divergent? { return Err("applying a merge without a candidate"); }
      Integrate(target, source, r.value.merged.value);
    }

    /** The previews of an opened request in order, then an optional application. */
    method Play(target: string, source: string, previews: seq<Request>, apply: Option<Request>)
      returns (r: Result<Option<Preview>>, expects: seq<Preview>)
      requires Valid() && target in books.heads && source in books.heads && Label.Merge(books.merges) !in books.order
      modifies this
      ensures Valid()
      ensures r.Ok? ==> (r.value.Some? <==> apply.Some?)
      ensures r.Ok? && apply.None? ==> SameButMemo(old(books), books)
      ensures r.Ok? && apply.Some? ==> Lands(old(books), books, target, source, apply.value, r.value.value)
      ensures r.Ok? ==>
        |previews| <= |expects| && Previewed(old(books), target, source, previews, expects[..|previews|])
      ensures r.Ok? ==>
        expects[|previews|..] == if apply.Some? && apply.value !in previews then [r.value.value] else []
      ensures r.Err? ==> SameButMemo(old(books), books)
      ensures r.Err? ==> MergeFails(old(books), target, source, previews, apply, r.reason)
    {
      var all := PreviewAll(target, source, previews);
      PreviewsStay(old(books), books, target, source, previews, if all.Ok? then all.value else [],
                   if all.Err? then all.reason else "");
      if all.Err? { return Err(all.reason), []; }
      expects := all.value;
      assert expects[..|previews|] == expects;
      if apply.None? { return Ok(None), expects; }
      ghost var previewed := books;
      var v := ApplyMerge(target, source, apply.value);
      if v.Err? {
        RefusalStays(old(books), previewed, target, source, apply.value, v.reason);
        return Err(v.reason), expects;
      }
      IntegrationStays(old(books), previewed, books, target, source, apply.value, v.value);
      if apply.value !in previews {
        expects := expects + [v.value];
        assert expects[..|previews|] == all.value;
      }
      return Ok(Some(v.value)), expects;
    }

    /** Open a request, preview it and apply it if asked to. */
    method Merge(source: string, target: string, previews: seq<Request>, apply: Option<Request>)
      returns (r: Result<Option<Preview>>, expects: seq<Preview>)
      requires Valid() && target in books.heads && source in books.heads
      modifies this
      ensures Valid()
      ensures r.Ok? ==> (r.value.Some? <==> apply.Some?)
      ensures r.Ok? && apply.None? ==> SameButMemo(Opened(old(books), target, source), books)
      ensures r.Ok? && apply.Some? ==>
        && old(books).heads[target].commit in old(books).expected
        && Applied(old(books), books, target, source, apply.value, r.value.value)
      ensures r.Ok? ==>
        && |previews| <= |expects|
        && Previewed(Opened(old(books), target, source), target, source, previews, expects[..|previews|])
      ensures r.Ok? ==>
        expects[|previews|..] == if apply.Some? && apply.value !in previews then [r.value.value] else []
      ensures r.Err? ==> SameButMemo(Opened(old(books), target, source), books)
      ensures r.Err? ==> MergeFails(Opened(old(books), target, source), target, source, previews, apply, r.reason)
    {
      Open(target, source);
      r, expects := Play(target, source, previews, apply);
    }

    /** Record the integration commit and move the target's head to it. */
    method Integrate(target: string, source: string, merged: State)
      requires Valid() && target in books.heads && source in books.heads && Label.Merge(books.merges) !in books.order
      modifies this
      ensures Valid() && old(books).heads[target].commit in old(books).expected
      ensures books == IntegrateIn(old(books), target, source, merged)
    {
      IntegratedBooks(books, target, source, merged);
      var t, s := books.heads[target], books.heads[source];
      var l := Label.Merge(books.merges);
      books := books.(planRetain := books.planRetain + {l});
      Record(l, [t.commit, s.commit], Change(t.state, merged), merged);
      books := books.(heads := books.heads[target := Head(l, merged)]);
    }
  }
}
