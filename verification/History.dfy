/** Append-only commit histories as the benchmark generator records them: who a commit's parents
    are, how deep it lies, what its patch is and what state results. */
module History {
  import opened Dag
  import opened CommonAncestors
  import opened ThreeWay

  /** Commit labels: the parts of an initial load, the numbered commits of a branch (`main@0` is
      the loaded state) and integration commits. */
  datatype Label = Bulk(i: nat) | Numbered(branch: string, n: nat) | Merge(k: nat)

  datatype Patch = Patch(adds: State, deletes: State)
  datatype Expected = Expected(parents: seq<Label>, depth: nat, foldOps: nat, content: State)

  function Apply(state: State, patch: Patch): State {
    (state - patch.deletes) + patch.adds
  }

  function Size(patch: Patch): nat {
    |patch.adds| + |patch.deletes|
  }

  /** A patch that deletes only what is there and adds only what is not. */
  predicate Fits(patch: Patch, state: State) {
    patch.deletes <= state && patch.adds !! state
  }

  /** The patch of an integration commit: what changed from the target's state. */
  function Change(from: State, to: State): (r: Patch)
    ensures Fits(r, from) && Apply(from, r) == to
    ensures Size(r) == |(from - to) + (to - from)|
  {
    Patch(to - from, from - to)
  }

  type Record = map<Label, Expected>
  type Patches = map<Label, Patch>

  // ---- well-formed histories -----------------------------------------------------------------

  /** Commits in order of creation, parents first; the first is the only root. */
  ghost predicate Rooted(order: seq<Label>, p: Parents<Label>) {
    && NoDuplicates(order) && order != [] && p.Keys == Commits(order) && Finished(p, order)
    && (forall l {:trigger Rooting(order, p, l)} :: l in p ==> Rooting(order, p, l))
  }

  predicate Rooting(order: seq<Label>, p: Parents<Label>, l: Label)
    requires order != []
  {
    l in p && (p[l] == [] <==> l == order[0])
  }

  /** What `record` stores for a commit, given its first parent's entry. */
  predicate EntryOk(x: Expected, first: Expected, patch: Patch) {
    && Fits(patch, first.content) && x.content == Apply(first.content, patch)
    && x.depth == first.depth + 1 && x.foldOps == first.foldOps + Size(patch)
  }

  predicate RootOk(x: Expected, patch: Patch) {
    patch.deletes == {} && x.content == patch.adds && x.depth == 0 && x.foldOps == Size(patch)
  }

  predicate Entry(p: Parents<Label>, e: Record, patches: Patches, l: Label) {
    && l in p && l in e && l in patches && e[l].parents == p[l]
    && (p[l] == [] ==> RootOk(e[l], patches[l]))
    && (p[l] != [] ==> p[l][0] in e && EntryOk(e[l], e[p[l][0]], patches[l]))
  }

  ghost predicate Recorded(p: Parents<Label>, e: Record, patches: Patches) {
    && e.Keys == p.Keys && patches.Keys == p.Keys
    && forall l {:trigger Entry(p, e, patches, l)} :: l in p ==> Entry(p, e, patches, l)
  }

  lemma FinishedExtends(order: seq<Label>, p: Parents<Label>, l: Label, ps: seq<Label>)
    requires Finished(p, order) && p.Keys == Commits(order) && l !in order
    requires forall q :: q in ps ==> q in order
    ensures Finished(p[l := ps], order + [l])
  {
    var o, p' := order + [l], p[l := ps];
    forall i, y | 0 <= i < |o| && Edge(p', o[i], y) ensures y in o[..i] {
      if i < |order| {
        assert Edge(p, order[i], y);
        assert o[..i] == order[..i];
      } else {
        assert o[..i] == order;
      }
    }
  }

  lemma RootedKeeps(order: seq<Label>, p: Parents<Label>, l: Label, ps: seq<Label>)
    requires Rooted(order, p) && l !in order && ps != [] && forall q :: q in ps ==> q in p
    ensures Rooted(order + [l], p[l := ps])
  {
    assert Commits(order + [l]) == Commits(order) + {l};
    forall q | q in ps ensures q in order { assert q in Commits(order); }
    FinishedExtends(order, p, l, ps);
    var p' := p[l := ps];
    forall k | k in p' ensures Rooting(order + [l], p', k) {
      if k != l { assert Rooting(order, p, k); }
    }
  }

  lemma EntryStays(p: Parents<Label>, e: Record, patches: Patches, l: Label, x: Expected, patch: Patch, k: Label)
    requires Entry(p, e, patches, k) && l !in p && l !in e
    ensures Entry(p[l := x.parents], e[l := x], patches[l := patch], k)
  {
  }

  /** Recording a new commit on known parents keeps the history. */
  lemma RecordKeeps(order: seq<Label>, p: Parents<Label>, e: Record, patches: Patches, l: Label, x: Expected,
                    patch: Patch)
    requires Rooted(order, p) && Recorded(p, e, patches) && l !in order
    requires x.parents != [] && (forall q :: q in x.parents ==> q in p) && EntryOk(x, e[x.parents[0]], patch)
    ensures Rooted(order + [l], p[l := x.parents])
    ensures Recorded(p[l := x.parents], e[l := x], patches[l := patch])
  {
    RootedKeeps(order, p, l, x.parents);
    assert l !in p by { assert l !in Commits(order); }
    RecordedKeeps(p, e, patches, l, x, patch);
  }

  lemma RecordedKeeps(p: Parents<Label>, e: Record, patches: Patches, l: Label, x: Expected, patch: Patch)
    requires Recorded(p, e, patches) && l !in p
    requires x.parents != [] && x.parents[0] in p && EntryOk(x, e[x.parents[0]], patch)
    ensures Recorded(p[l := x.parents], e[l := x], patches[l := patch])
  {
    var p', e', c' := p[l := x.parents], e[l := x], patches[l := patch];
    forall k | k in p' ensures Entry(p', e', c', k) {
      if k != l {
        assert Entry(p, e, patches, k);
        EntryStays(p, e, patches, l, x, patch, k);
      }
    }
  }

  lemma RootKeeps(l: Label, patch: Patch)
    requires patch.deletes == {}
    ensures Rooted([l], map[l := []])
    ensures Recorded(map[l := []], map[l := Expected([], 0, Size(patch), patch.adds)], map[l := patch])
  {
  }

  // ---- reachability in a history ---------------------------------------------------------------

  lemma KnownIsClosed(order: seq<Label>, p: Parents<Label>, a: Label, b: Label)
    requires Rooted(order, p) && a in order && Reaches(p, a, b)
    ensures b in order && Sound(p, a)
  {
    FinishedIsAcyclic(p, order, a, b);
    forall c | Reaches(p, a, c) ensures c in p && !ReachesProperly(p, c, c) {
      FinishedIsAcyclic(p, order, a, c);
      assert c in Commits(order);
      ReachesSelf(p, c);
      FinishedIsAcyclic(p, order, c, c);
    }
  }

  /** Every commit descends from the first one. */
  lemma {:induction false} AllDescendFromRoot(order: seq<Label>, p: Parents<Label>, i: nat)
    requires Rooted(order, p) && i < |order|
    ensures Reaches(p, order[i], order[0])
    decreases i
  {
    ReachesSelf(p, order[0]);
    if i > 0 {
      var l := order[i];
      assert l in Commits(order) && l != order[0] && Rooting(order, p, l);
      var q := p[l][0];
      assert Edge(p, l, q);
      assert q in order[..i];
      var j :| 0 <= j < i && order[j] == q;
      AllDescendFromRoot(order, p, j);
      ReachesByEdge(p, l, q);
      ReachesTrans(p, l, q, order[0]);
    }
  }

  /** Any two commits have a best common ancestor. */
  lemma HistoriesAreRelated(order: seq<Label>, p: Parents<Label>, a: Label, b: Label) returns (c: Label)
    requires Rooted(order, p) && a in order && b in order
    ensures Best(p, a, b, c)
  {
    var i :| 0 <= i < |order| && order[i] == a;
    var j :| 0 <= j < |order| && order[j] == b;
    AllDescendFromRoot(order, p, i);
    AllDescendFromRoot(order, p, j);
    ReachesSelf(p, a);
    KnownIsClosed(order, p, a, a);
    c := EveryCommonIsBelowABest(p, a, b, order[0]);
  }

  lemma ReachGrows(p: Parents<Label>, l: Label, ps: seq<Label>, a: Label, b: Label)
    requires l !in p && Reaches(p, a, b)
    ensures Reaches(p[l := ps], a, b)
  {
    var path :| Joins(p, path, a, b);
    forall i | 0 <= i < |path| - 1 ensures Edge(p[l := ps], path[i], path[i + 1]) {
      assert Edge(p, path[i], path[i + 1]);
    }
    assert Joins(p[l := ps], path, a, b);
  }

  /** A new commit changes nothing below the old ones. */
  lemma OldReachIsStable(order: seq<Label>, p: Parents<Label>, l: Label, ps: seq<Label>, a: Label, b: Label)
    requires Rooted(order, p) && l !in order && a in order
    ensures Reaches(p[l := ps], a, b) <==> Reaches(p, a, b)
  {
    var p' := p[l := ps];
    assert l !in Commits(order);
    if Reaches(p, a, b) { ReachGrows(p, l, ps, a, b); }
    if Reaches(p', a, b) {
      var known := ReachSet(p, a);
      ReachesSelf(p, a);
      forall x, y | x in known && Edge(p', x, y) ensures y in known {
        KnownIsClosed(order, p, a, x);
        assert x in Commits(order) && Edge(p, x, y);
        ReachesByEdge(p, x, y);
        ReachesTrans(p, a, x, y);
      }
      ClosedHoldsReach(p', known, a, b);
    }
  }

  // ---- replaying a history -----------------------------------------------------------------------

  predicate Steps(p: Parents<Label>, a: Label, b: Label) {
    a in p && p[a] != [] && p[a][0] == b
  }

  /** A first-parent chain, head first, down to a root. */
  predicate IsChain(p: Parents<Label>, chain: seq<Label>) {
    && chain != []
    && (forall i :: 0 <= i < |chain| - 1 ==> Steps(p, chain[i], chain[i + 1]))
    && chain[|chain| - 1] in p && p[chain[|chain| - 1]] == []
  }

  function Replay(patches: Patches, chain: seq<Label>): State
    requires forall l :: l in chain ==> l in patches
  {
    if chain == [] then {} else Apply(Replay(patches, chain[1..]), patches[chain[0]])
  }

  function TotalOps(patches: Patches, chain: seq<Label>): nat
    requires forall l :: l in chain ==> l in patches
  {
    if chain == [] then 0 else TotalOps(patches, chain[1..]) + Size(patches[chain[0]])
  }

  lemma ChainTail(p: Parents<Label>, chain: seq<Label>)
    requires IsChain(p, chain) && |chain| > 1
    ensures IsChain(p, chain[1..]) && Steps(p, chain[0], chain[1..][0])
  {
    forall i | 0 <= i < |chain[1..]| - 1 ensures Steps(p, chain[1..][i], chain[1..][i + 1]) {
      assert Steps(p, chain[i + 1], chain[i + 2]);
    }
    assert Steps(p, chain[0], chain[1]);
  }

  /** Folding the patches of a parent-0 chain from its root gives the recorded state; the recorded
      depth and operation count are the chain's. */
  lemma {:induction false} ReplayGivesTheState(p: Parents<Label>, e: Record, patches: Patches, chain: seq<Label>)
    requires Recorded(p, e, patches) && IsChain(p, chain)
    ensures chain[0] in e && forall l :: l in chain ==> l in patches
    ensures Replay(patches, chain) == e[chain[0]].content
    ensures TotalOps(patches, chain) == e[chain[0]].foldOps
    ensures |chain| - 1 == e[chain[0]].depth
  {
    if |chain| > 1 {
      ChainTail(p, chain);
      ReplayGivesTheState(p, e, patches, chain[1..]);
      assert chain == [chain[0]] + chain[1..];
    } else {
      assert chain[1..] == [];
    }
    assert Entry(p, e, patches, chain[0]);
  }

  /** The walk down the first parents; it ends because parents come earlier. */
  method FirstParentChain(p: Parents<Label>, head: Label, ghost order: seq<Label>) returns (out: seq<Label>)
    requires Rooted(order, p) && head in p
    ensures IsChain(p, out) && out[0] == head
  {
    out := [head];
    var cur := head;
    assert head in Commits(order);
    ghost var at :| 0 <= at < |order| && order[at] == cur;
    while p[cur] != []
      invariant 0 <= at < |order| && order[at] == cur && cur in p
      invariant out != [] && out[0] == head && out[|out| - 1] == cur
      invariant forall i :: 0 <= i < |out| - 1 ==> Steps(p, out[i], out[i + 1])
      decreases at
    {
      var q := p[cur][0];
      assert Edge(p, order[at], q);
      ghost var j :| 0 <= j < at && order[j] == q;
      assert order[j] in Commits(order);
      out, cur, at := out + [q], q, j;
    }
  }

  // ---- folding stored operations -----------------------------------------------------------------

  datatype Op = Add(q: Stmt) | Delete(q: Stmt)

  function Do(state: State, op: Op): State {
    match op
    case Add(q) => state + {q}
    case Delete(q) => state - {q}
  }

  function DoAll(state: State, ops: seq<Op>): State {
    if ops == [] then state else Do(DoAll(state, ops[..|ops| - 1]), ops[|ops| - 1])
  }

  function FoldAll(chain: seq<seq<Op>>): State {
    if chain == [] then {} else DoAll(FoldAll(chain[..|chain| - 1]), chain[|chain| - 1])
  }

  method FoldCpu(chain: seq<seq<Op>>) returns (state: State)
    ensures state == FoldAll(chain)
  {
    state := {};
    for i := 0 to |chain|
      invariant state == FoldAll(chain[..i])
    {
      ghost var before := state;
      for j := 0 to |chain[i]|
        invariant state == DoAll(before, chain[i][..j])
      {
        assert chain[i][..j + 1][..j] == chain[i][..j];
        state := match chain[i][j] case Add(q) => state + {q} case Delete(q) => state - {q};
      }
      assert chain[i][..|chain[i]|] == chain[i] && chain[..i + 1][..i] == chain[..i];
    }
    assert chain[..|chain|] == chain;
  }

  /** A stored patch: the operations of `patch` in any order, none contradicting another. */
  ghost predicate Renders(ops: seq<Op>, patch: Patch) {
    && (forall q :: Add(q) in ops <==> q in patch.adds)
    && (forall q :: Delete(q) in ops <==> q in patch.deletes)
    && patch.adds !! patch.deletes
  }

  lemma {:induction false} DoAllMember(state: State, ops: seq<Op>, q: Stmt)
    requires !(Add(q) in ops && Delete(q) in ops)
    ensures q in DoAll(state, ops) <==> Add(q) in ops || (q in state && Delete(q) !in ops)
  {
    if ops != [] {
      var n := |ops| - 1;
      assert ops == ops[..n] + [ops[n]];
      DoAllMember(state, ops[..n], q);
    }
  }

  lemma OrderOfOperationsIsIrrelevant(state: State, ops: seq<Op>, patch: Patch)
    requires Renders(ops, patch)
    ensures DoAll(state, ops) == Apply(state, patch)
  {
    forall q ensures q in DoAll(state, ops) <==> q in Apply(state, patch) { DoAllMember(state, ops, q); }
  }

  /** Folding the stored operations from the root up gives the recorded state. */
  lemma {:induction false} FoldGivesTheState(p: Parents<Label>, e: Record, patches: Patches, chain: seq<Label>,
                                             ops: seq<seq<Op>>)
    requires Recorded(p, e, patches) && IsChain(p, chain) && |ops| == |chain|
    requires forall l :: l in chain ==> l in patches
    requires forall i :: 0 <= i < |ops| ==> Renders(ops[i], patches[chain[|chain| - 1 - i]])
    ensures chain[0] in e && FoldAll(ops) == e[chain[0]].content
  {
    var n := |ops| - 1;
    assert Renders(ops[n], patches[chain[0]]);
    if |chain| > 1 {
      ChainTail(p, chain);
      forall i | 0 <= i < n ensures Renders(ops[..n][i], patches[chain[1..][n - 1 - i]]) {
        assert Renders(ops[i], patches[chain[|chain| - 1 - i]]);
      }
      FoldGivesTheState(p, e, patches, chain[1..], ops[..n]);
    } else {
      assert ops[..n] == [];
    }
    OrderOfOperationsIsIrrelevant(FoldAll(ops[..n]), ops[n], patches[chain[0]]);
    assert Entry(p, e, patches, chain[0]);
  }
}
