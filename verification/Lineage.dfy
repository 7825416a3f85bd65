/** The BEAR-B lineage cross-check: time-annotated membership, independent copies and raw changesets
    must tell the same history, and the window extracted from it. */
module Lineage {
  import opened Basics
  import opened Wire

  type Quad = Bytes

  /** Which 0-based versions hold a statement. */
  type Membership = map<Quad, set<nat>>

  /** A raw changeset; a statement may be in both parts (no-op churn). */
  datatype Change = Change(added: set<Quad>, deleted: set<Quad>)

  function StateAt(m: Membership, k: nat): set<Quad> {
    set t | t in m && k in m[t]
  }

  function Apply(s: set<Quad>, c: Change): set<Quad> {
    (s - c.deleted) + c.added
  }

  function Fold(s: set<Quad>, changes: seq<Change>): set<Quad> {
    if changes == [] then s else Apply(Fold(s, changes[..|changes| - 1]), changes[|changes| - 1])
  }

  /** The check of the step from version `k` to `k + 1`: the net change equals the membership
      difference, and churn is in both versions. */
  predicate StepAgrees(m: Membership, k: nat, c: Change) {
    && c.added - c.deleted == (set t | t in m && k + 1 in m[t] && k !in m[t])
    && c.deleted - c.added == (set t | t in m && k in m[t] && k + 1 !in m[t])
    && (forall t :: t in c.added * c.deleted ==> t in m && k in m[t] && k + 1 in m[t])
  }

  predicate Agrees(m: Membership, first: set<Quad>, changes: seq<Change>) {
    StateAt(m, 0) == first && forall k :: 0 <= k < |changes| ==> StepAgrees(m, k, changes[k])
  }

  function Churn(changes: seq<Change>): nat {
    if changes == [] then 0
    else
      var n := |changes| - 1;
      Churn(changes[..n]) + |changes[n].added * changes[n].deleted|
  }

  /** The anchor check and the loop over the changesets. */
  method CrossCheck(m: Membership, first: set<Quad>, changes: seq<Change>) returns (r: Result<nat>)
    ensures r.Ok? <==> Agrees(m, first, changes)
    ensures r.Ok? ==> r.value == Churn(changes)
  {
    if StateAt(m, 0) != first { return Err("the lineages do not share a start"); }
    var churn := 0;
    for k := 0 to |changes|
      invariant churn == Churn(changes[..k])
      invariant forall i :: 0 <= i < k ==> StepAgrees(m, i, changes[i])
    {
      var c := changes[k];
      var inBoth := c.added * c.deleted;
      churn := churn + |inBoth|;
      assert changes[..k + 1][..k] == changes[..k];
      var tbAdds := set t | t in m && k + 1 in m[t] && k !in m[t];
      var tbDels := set t | t in m && k in m[t] && k + 1 !in m[t];
      var churnOk := forall t :: t in inBoth ==> t in m && k in m[t] && k + 1 in m[t];
      if c.added - c.deleted != tbAdds || c.deleted - c.added != tbDels || !churnOk {
        assert !StepAgrees(m, k, changes[k]);
        return Err("a changeset disagrees with the membership");
      }
    }
    assert changes[..|changes|] == changes;
    return Ok(churn);
  }

  /** A step passes exactly when the changeset turns one version into the next, deletes only what
      was there and, net of churn, adds only what was not. */
  lemma StepAgreesExactly(m: Membership, k: nat, c: Change)
    ensures StepAgrees(m, k, c) <==>
      && Apply(StateAt(m, k), c) == StateAt(m, k + 1)
      && c.deleted <= StateAt(m, k) && (c.added - c.deleted) !! StateAt(m, k)
  {
    var s, t := StateAt(m, k), StateAt(m, k + 1);
    assert (set q | q in m && k + 1 in m[q] && k !in m[q]) == t - s;
    assert (set q | q in m && k in m[q] && k + 1 !in m[q]) == s - t;
    assert (forall q :: q in c.added * c.deleted ==> q in m && k in m[q] && k + 1 in m[q]) <==>
      c.added * c.deleted <= s * t;
    Differences(s, t, c);
  }

  lemma Differences(s: set<Quad>, t: set<Quad>, c: Change)
    ensures c.added - c.deleted == t - s && c.deleted - c.added == s - t && c.added * c.deleted <= s * t <==>
      Apply(s, c) == t && c.deleted <= s && (c.added - c.deleted) !! s
  {
    if c.added - c.deleted == t - s && c.deleted - c.added == s - t && c.added * c.deleted <= s * t {
      forall q ensures q in Apply(s, c) <==> q in t {
        assert q in c.added - c.deleted <==> q in t - s;
        assert q in c.deleted - c.added <==> q in s - t;
        assert q in c.added * c.deleted ==> q in s * t;
      }
      forall q | q in c.deleted ensures q in s {
        assert q in c.deleted - c.added <==> q in s - t;
        assert q in c.added * c.deleted ==> q in s * t;
      }
    }
  }

  /** When every check passes, folding the raw changesets from the first version, churn included,
      gives the membership state at every version. */
  lemma {:induction false} FoldIsTheMembership(m: Membership, first: set<Quad>, changes: seq<Change>, k: nat)
    requires Agrees(m, first, changes) && k <= |changes|
    ensures Fold(first, changes[..k]) == StateAt(m, k)
  {
    if k > 0 {
      FoldIsTheMembership(m, first, changes, k - 1);
      StepAgreesExactly(m, k - 1, changes[k - 1]);
      assert changes[..k][..k - 1] == changes[..k - 1];
    }
  }

  // ---- the window ------------------------------------------------------------------------------------

  /** The first version's state and each step's deletes and adds. */
  datatype Step = Step(dels: set<Quad>, adds: set<Quad>)
  datatype Prepared = Prepared(start: nat, base: set<Quad>, steps: seq<Step>)

  function After(s: set<Quad>, step: Step): set<Quad> {
    (s - step.dels) + step.adds
  }

  /** The state of the `k`-th version of the window. */
  function VersionState(p: Prepared, k: nat): set<Quad>
    requires k <= |p.steps|
  {
    if k == 0 then p.base else After(VersionState(p, k - 1), p.steps[k - 1])
  }

  /** Steps delete only what is there and add only what is not. */
  ghost predicate Proper(p: Prepared) {
    forall k: nat {:trigger ProperAt(p, k)} :: k < |p.steps| ==> ProperAt(p, k)
  }

  predicate ProperAt(p: Prepared, k: nat)
    requires k < |p.steps|
  {
    p.steps[k].dels <= VersionState(p, k) && p.steps[k].adds !! VersionState(p, k)
  }

  lemma {:induction false} VersionsDependOnThePast(p: Prepared, step: Step, k: nat)
    requires k <= |p.steps|
    ensures VersionState(p.(steps := p.steps + [step]), k) == VersionState(p, k)
  {
    if k > 0 { VersionsDependOnThePast(p, step, k - 1); }
  }

  /** The extraction loop: differences of consecutive membership states. */
  method Window(m: Membership, start: nat, length: nat) returns (p: Prepared)
    ensures p.start == start && |p.steps| == length && Proper(p)
    ensures forall k :: 0 <= k <= length ==> VersionState(p, k) == StateAt(m, start + k)
  {
    p := Prepared(start, StateAt(m, start), []);
    var prev := p.base;
    for k := 0 to length
      invariant p.start == start && |p.steps| == k && Proper(p) && prev == StateAt(m, start + k)
      invariant forall i :: 0 <= i <= k ==> VersionState(p, i) == StateAt(m, start + i)
    {
      var next := StateAt(m, start + k + 1);
      var step := Step(prev - next, next - prev);
      ghost var q := p.(steps := p.steps + [step]);
      forall i | 0 <= i <= k ensures VersionState(q, i) == StateAt(m, start + i) {
        VersionsDependOnThePast(p, step, i);
      }
      assert VersionState(q, k + 1) == After(StateAt(m, start + k), step);
      assert After(prev, step) == next;
      forall i: nat | i < |q.steps| ensures ProperAt(q, i) {
        if i < k { assert ProperAt(p, i); VersionsDependOnThePast(p, step, i); }
      }
      p, prev := p.(steps := p.steps + [step]), next;
    }
  }
}
