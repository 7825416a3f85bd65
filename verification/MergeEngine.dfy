/** The product's three-way merge: a loop over slots that merges, counts conflicts and offers each to
    a reporter with a byte budget. The budget bounds the report alone. */
module MergeEngine {
  import opened Basics
  import opened ThreeWay

  // ---- the report ---------------------------------------------------------------------------------------

  datatype Side = Side(quads: seq<Stmt>, truncated: bool)
  datatype Conflict = Conflict(key: bv64, base: Side, target: Side, source: Side)

  /** A conflict as it was offered: every side whole. */
  datatype Offered = Offered(key: bv64, base: seq<Stmt>, target: seq<Stmt>, source: seq<Stmt>)

  datatype Limits = Limits(maxConflicts: nat, maxQuads: nat, maxBytes: nat)

  /** Bytes charged for a conflict's key (framing included) and for one listed statement. */
  datatype Costs = Costs(key: bv64 -> nat, quad: Stmt -> nat)

  function Total(c: Costs, qs: seq<Stmt>): nat {
    if qs == [] then 0 else Total(c, qs[..|qs| - 1]) + c.quad(qs[|qs| - 1])
  }

  function Cost(c: Costs, x: Conflict): nat {
    c.key(x.key) + Total(c, x.base.quads) + Total(c, x.target.quads) + Total(c, x.source.quads)
  }

  function Spent(c: Costs, xs: seq<Conflict>): nat {
    if xs == [] then 0 else Spent(c, xs[..|xs| - 1]) + Cost(c, xs[|xs| - 1])
  }

  /** A listed side is a prefix of the whole one, within the cap, and says whether it is short. */
  predicate Shows(l: Limits, side: Side, whole: seq<Stmt>) {
    side.quads <= whole && |side.quads| <= l.maxQuads && (side.truncated <==> side.quads != whole)
  }

  predicate Lists(l: Limits, x: Conflict, o: Offered) {
    x.key == o.key && Shows(l, x.base, o.base) && Shows(l, x.target, o.target) && Shows(l, x.source, o.source)
  }

  predicate Short(x: Conflict) { x.base.truncated || x.target.truncated || x.source.truncated }

  /** The report is a prefix of what was offered, within every limit. */
  predicate Reports(l: Limits, c: Costs, xs: seq<Conflict>, os: seq<Offered>) {
    && |xs| <= |os| && |xs| <= l.maxConflicts && Spent(c, xs) <= l.maxBytes
    && forall i :: 0 <= i < |xs| ==> Lists(l, xs[i], os[i])
  }

  /** Something offered is not shown in full. */
  predicate LeavesOut(xs: seq<Conflict>, os: seq<Offered>) {
    |xs| < |os| || exists i :: 0 <= i < |xs| && Short(xs[i])
  }

  lemma {:induction false} TotalGrows(c: Costs, qs: seq<Stmt>, i: nat)
    requires i < |qs|
    ensures Total(c, qs[..i + 1]) == Total(c, qs[..i]) + c.quad(qs[i]) <= Total(c, qs)
    decreases |qs| - i
  {
    assert qs[..i + 1][..i] == qs[..i];
    if i + 1 < |qs| { TotalGrows(c, qs, i + 1); } else { assert qs[..i + 1] == qs; }
  }

  function Whole(o: Offered): Conflict {
    Conflict(o.key, Side(o.base, false), Side(o.target, false), Side(o.source, false))
  }

  /** Everything offered fits what is left of the budget and the caps. */
  predicate FitsWhole(l: Limits, c: Costs, o: Offered, remaining: nat) {
    Small(l, o) && Cost(c, Whole(o)) <= remaining
  }

  function Wholes(os: seq<Offered>): seq<Conflict> {
    seq(|os|, i requires 0 <= i < |os| => Whole(os[i]))
  }

  predicate Small(l: Limits, o: Offered) {
    |o.base| <= l.maxQuads && |o.target| <= l.maxQuads && |o.source| <= l.maxQuads
  }

  /** Everything offered fits every limit. */
  predicate Fits(l: Limits, c: Costs, os: seq<Offered>) {
    |os| <= l.maxConflicts && Spent(c, Wholes(os)) <= l.maxBytes && forall i :: 0 <= i < |os| ==> Small(l, os[i])
  }

  datatype Flags = Flags(exhausted: bool, incomplete: bool)

  /** What a reporter keeps true of its budget, its flags and what it was offered. */
  predicate Honest(l: Limits, c: Costs, remaining: nat, f: Flags, xs: seq<Conflict>, os: seq<Offered>) {
    && Reports(l, c, xs, os) && remaining + Spent(c, xs) == l.maxBytes
    && (!f.exhausted ==> |xs| == |os|)
    && (f.exhausted || f.incomplete <==> LeavesOut(xs, os))
  }

  lemma RefusalIsHonest(l: Limits, c: Costs, remaining: nat, f: Flags, xs: seq<Conflict>, os: seq<Offered>, o: Offered)
    requires Honest(l, c, remaining, f, xs, os)
    ensures Honest(l, c, remaining, f.(exhausted := true), xs, os + [o])
  {
    assert forall i :: 0 <= i < |xs| ==> (os + [o])[i] == os[i];
  }

  lemma ListingIsHonest(l: Limits, c: Costs, remaining: nat, f: Flags, xs: seq<Conflict>, os: seq<Offered>,
                        after: nat, g: Flags, x: Conflict, o: Offered)
    requires Honest(l, c, remaining, f, xs, os) && !f.exhausted
    requires |xs| < l.maxConflicts && Lists(l, x, o) && after + Cost(c, x) == remaining
    requires (g.incomplete <==> f.incomplete || Short(x)) && (g.exhausted ==> Short(x))
    ensures Honest(l, c, after, g, xs + [x], os + [o])
  {
    var all := xs + [x];
    assert all[..|xs|] == xs;
    assert forall i :: 0 <= i < |xs| ==> all[i] == xs[i] && (os + [o])[i] == os[i];
    if i :| 0 <= i < |xs| && Short(xs[i]) { assert Short(all[i]); }
    if Short(x) { assert Short(all[|xs|]); }
  }

  class Reporter {
    const limits: Limits
    const costs: Costs
    var remaining: nat
    var conflicts: seq<Conflict>
    var exhausted: bool
    var incomplete: bool
    ghost var offered: seq<Offered>

    ghost predicate Valid()
      reads this
    {
      Honest(limits, costs, remaining, Flags(exhausted, incomplete), conflicts, offered)
    }

    /** Nothing is left out while everything offered fits. */
    ghost predicate Generous()
      reads this
    {
      Fits(limits, costs, offered) ==> conflicts == Wholes(offered)
    }

    constructor (limits: Limits, costs: Costs)
      ensures Valid() && Generous() && this.limits == limits && this.costs == costs && conflicts == [] && offered == []
    {
      this.limits, this.costs := limits, costs;
      remaining, conflicts, exhausted, incomplete, offered := limits.maxBytes, [], false, false, [];
    }

    method Charge(cost: nat) returns (ok: bool)
      modifies `remaining, `exhausted
      ensures ok <==> cost <= old(remaining)
      ensures ok ==> remaining == old(remaining) - cost && exhausted == old(exhausted)
      ensures !ok ==> remaining == old(remaining) && exhausted
    {
      if cost > remaining {
        exhausted := true;
        return false;
      }
      remaining := remaining - cost;
      return true;
    }

    /** Whole statements while they fit, then a truncation mark. */
    method ListSide(whole: seq<Stmt>) returns (side: Side)
      modifies `remaining, `exhausted, `incomplete
      ensures Shows(limits, side, whole) && old(remaining) == remaining + Total(costs, side.quads)
      ensures incomplete <==> old(incomplete) || side.truncated
      ensures old(exhausted) ==> exhausted
      ensures exhausted && !old(exhausted) ==> side.truncated
      ensures !old(exhausted) && |whole| <= limits.maxQuads && Total(costs, whole) <= old(remaining) ==>
        side.quads == whole && !exhausted
    {
      var i := 0;
      if !exhausted {
        while i < |whole| && i < limits.maxQuads
          invariant i <= |whole| && i <= limits.maxQuads && !exhausted && incomplete == old(incomplete)
          invariant old(remaining) == remaining + Total(costs, whole[..i])
        {
          TotalGrows(costs, whole, i);
          var ok := Charge(costs.quad(whole[i]));
          if !ok { break; }
          i := i + 1;
        }
      }
      side := Side(whole[..i], i < |whole|);
      incomplete := incomplete || side.truncated;
    }

    /** The three sides of a conflict whose key has been charged. */
    method ListSides(o: Offered) returns (x: Conflict)
      requires !exhausted
      modifies `remaining, `exhausted, `incomplete
      ensures Lists(limits, x, o) && remaining + Cost(costs, x) == old(remaining) + costs.key(o.key)
      ensures incomplete <==> old(incomplete) || Short(x)
      ensures exhausted ==> Short(x)
      ensures FitsWhole(limits, costs, o, old(remaining) + costs.key(o.key)) ==> x == Whole(o) && !exhausted
    {
      var base := ListSide(o.base);
      var target := ListSide(o.target);
      var source := ListSide(o.source);
      x := Conflict(o.key, base, target, source);
    }

    /** List a conflict unless a report-level limit was hit. */
    method Place(o: Offered)
      requires Valid()
      modifies this
      ensures Valid() && offered == old(offered) + [o]
      ensures
        && !old(exhausted) && |old(conflicts)| < limits.maxConflicts
        && FitsWhole(limits, costs, o, old(remaining)) ==>
          conflicts == old(conflicts) + [Whole(o)]
    {
      RefusalIsHonest(limits, costs, remaining, Flags(exhausted, incomplete), conflicts, offered, o);
      offered := offered + [o];
      if exhausted { return; }
      if |conflicts| == limits.maxConflicts {
        exhausted := true;
        return;
      }
      var ok := Charge(costs.key(o.key));
      if !ok { return; }
      var x := ListSides(o);
      ListingIsHonest(limits, costs, old(remaining), Flags(false, old(incomplete)), old(conflicts), old(offered),
                      remaining, Flags(exhausted, incomplete), x, o);
      conflicts := conflicts + [x];
    }

    method Offer(o: Offered)
      requires Valid() && Generous()
      modifies this
      ensures Valid() && Generous() && offered == old(offered) + [o]
    {
      if Fits(limits, costs, offered + [o]) {
        RoomForNext(limits, costs, offered, o);
        CompleteIsWhole(limits, costs, conflicts, offered);
      }
      Place(o);
    }
  }

  lemma RoomForNext(l: Limits, c: Costs, os: seq<Offered>, o: Offered)
    requires Fits(l, c, os + [o])
    ensures Fits(l, c, os) && |os| < l.maxConflicts && FitsWhole(l, c, o, l.maxBytes - Spent(c, Wholes(os)))
    ensures Wholes(os + [o]) == Wholes(os) + [Whole(o)]
  {
    var all := os + [o];
    assert Wholes(all)[..|os|] == Wholes(os);
    assert Small(l, all[|os|]);
    assert forall i :: 0 <= i < |os| ==> os[i] == all[i];
  }

  /** A report leaves nothing out exactly when it lists everything whole; then everything fits. */
  lemma CompleteIsWhole(l: Limits, c: Costs, xs: seq<Conflict>, os: seq<Offered>)
    requires Reports(l, c, xs, os)
    ensures !LeavesOut(xs, os) <==> xs == Wholes(os)
    ensures xs == Wholes(os) ==> Fits(l, c, os)
  {
    if !LeavesOut(xs, os) {
      forall i | 0 <= i < |os| ensures xs[i] == Wholes(os)[i] { assert Lists(l, xs[i], os[i]) && !Short(xs[i]); }
    }
    if xs == Wholes(os) {
      forall i | 0 <= i < |os| ensures Small(l, os[i]) && !Short(xs[i]) { assert Lists(l, xs[i], os[i]); }
    }
  }

  // ---- the engine ---------------------------------------------------------------------------------------------

  /** The slots of the three states, each once, in the order an ordered map yields them. */
  ghost predicate Enumerates(keys: seq<bv64>, b: State, t: State, s: State) {
    && (forall k :: k in keys <==> k in Slots(b) + Slots(t) + Slots(s))
    && (forall i, j :: 0 <= i < j < |keys| ==> keys[i] != keys[j])
  }

  datatype Outcome = Outcome(merged: Option<State>, conflicts: seq<Conflict>, count: nat, truncated: bool)

  function Joined(strategy: Strategy, b: State, t: State, s: State, keys: seq<bv64>): State {
    set q | q in b + t + s && Slot(q) in keys && q in SlotRule(strategy, At(b, Slot(q)), At(t, Slot(q)), At(s, Slot(q)))
  }

  lemma JoinSlot(strategy: Strategy, b: State, t: State, s: State, keys: seq<bv64>, k: bv64)
    ensures Joined(strategy, b, t, s, keys + [k]) == Joined(strategy, b, t, s, keys)
      + SlotRule(strategy, At(b, k), At(t, k), At(s, k))
  {
    forall q | q in SlotRule(strategy, At(b, k), At(t, k), At(s, k)) ensures Slot(q) == k && q in b + t + s {
      assert q in At(t, k) || q in At(s, k);
    }
  }

  function OfferAt(b: State, t: State, s: State, k: bv64, list: State -> seq<Stmt>): Offered {
    Offered(k, list(At(b, k)), list(At(t, k)), list(At(s, k)))
  }

  /** Every conflict in key order, each side whole. */
  function Offers(b: State, t: State, s: State, keys: seq<bv64>, list: State -> seq<Stmt>): seq<Offered> {
    if keys == [] then []
    else
      var k := keys[|keys| - 1];
      Offers(b, t, s, keys[..|keys| - 1], list) + if Conflicts(b, t, s, k) then [OfferAt(b, t, s, k, list)] else []
  }

  /** The keys in conflict, in key order. */
  function ConflictKeys(b: State, t: State, s: State, keys: seq<bv64>): seq<bv64> {
    if keys == [] then []
    else (if Conflicts(b, t, s, keys[0]) then [keys[0]] else []) + ConflictKeys(b, t, s, keys[1..])
  }

  lemma {:induction false} ConflictKeysGrow(b: State, t: State, s: State, keys: seq<bv64>, k: bv64)
    ensures ConflictKeys(b, t, s, keys + [k])
      == ConflictKeys(b, t, s, keys) + if Conflicts(b, t, s, k) then [k] else []
  {
    if keys == [] {
      assert keys + [k] == [k];
    } else {
      ConflictKeysGrow(b, t, s, keys[1..], k);
      assert (keys + [k])[1..] == keys[1..] + [k];
    }
  }

  /** One offer for each key in conflict, in key order, showing what the base, the target and the
      source hold there. */
  lemma {:induction false} OffersShowTheConflicts(b: State, t: State, s: State, keys: seq<bv64>,
                                                  list: State -> seq<Stmt>)
    ensures
      var os, ks := Offers(b, t, s, keys, list), ConflictKeys(b, t, s, keys);
      |os| == |ks| && forall i :: 0 <= i < |os| ==>
        && os[i].key == ks[i] && os[i].base == list(At(b, ks[i]))
        && os[i].target == list(At(t, ks[i])) && os[i].source == list(At(s, ks[i]))
  {
    if keys != [] {
      var n := |keys| - 1;
      OffersShowTheConflicts(b, t, s, keys[..n], list);
      ConflictKeysGrow(b, t, s, keys[..n], keys[n]);
      assert keys == keys[..n] + [keys[n]];
    }
  }

  function Conflicting(b: State, t: State, s: State, keys: seq<bv64>): set<bv64> {
    set k | k in keys && Conflicts(b, t, s, k)
  }

  /** Slot by slot: merged, counted and reported. The merge and the count do not depend on the
      report's limits; the report is a prefix of the conflicts within them, and it says it is
      truncated exactly when it leaves something out. */
  method ThreeWayReported(b: State, t: State, s: State, strategy: Strategy, limits: Limits, costs: Costs,
                          keys: seq<bv64>, list: State -> seq<Stmt>)
    returns (r: Outcome)
    requires Enumerates(keys, b, t, s)
    ensures r.merged == if Refused(strategy, b, t, s) then None else Some(SlotMerge(strategy, b, t, s))
    ensures r.count == |ConflictSlots(b, t, s)|
    ensures Reports(limits, costs, r.conflicts, Offers(b, t, s, keys, list))
    ensures r.truncated <==> LeavesOut(r.conflicts, Offers(b, t, s, keys, list))
    ensures r.truncated <==> !Fits(limits, costs, Offers(b, t, s, keys, list))
  {
    var reporter := new Reporter(limits, costs);
    var merged: State, count := {}, 0;
    assert Joined(strategy, b, t, s, keys[..0]) == {} && Conflicting(b, t, s, keys[..0]) == {};
    for i := 0 to |keys|
      invariant reporter.Valid() && reporter.Generous() && reporter.limits == limits && reporter.costs == costs
        && fresh(reporter)
      invariant merged == Joined(strategy, b, t, s, keys[..i])
      invariant count == |Conflicting(b, t, s, keys[..i])| && reporter.offered == Offers(b, t, s, keys[..i], list)
    {
      var k := keys[i];
      var base, target, source := At(b, k), At(t, k), At(s, k);
      NextSlot(strategy, b, t, s, keys, i, list);
      var result := SlotRule(strategy, base, target, source);
      if Conflicts(b, t, s, k) {
        count := count + 1;
        reporter.Offer(OfferAt(b, t, s, k, list));
      }
      merged := merged + result;
    }
    assert keys[..|keys|] == keys;
    CompleteIsWhole(limits, costs, reporter.conflicts, reporter.offered);
    EveryConflict(b, t, s, keys);
    EveryStatement(strategy, b, t, s, keys);
    r := Outcome(if strategy != Abort || count == 0 then Some(merged) else None, reporter.conflicts, count,
                  reporter.exhausted || reporter.incomplete);
  }

  lemma CountSlot(b: State, t: State, s: State, keys: seq<bv64>, k: bv64)
    requires k !in keys
    ensures |Conflicting(b, t, s, keys + [k])| == |Conflicting(b, t, s, keys)| + if Conflicts(b, t, s, k) then 1 else 0
  {
    var before := Conflicting(b, t, s, keys);
    assert Conflicting(b, t, s, keys + [k]) == if Conflicts(b, t, s, k) then before + {k} else before;
  }

  lemma NextSlot(strategy: Strategy, b: State, t: State, s: State, keys: seq<bv64>, i: nat, list: State -> seq<Stmt>)
    requires i < |keys| && forall j :: 0 <= j < i ==> keys[j] != keys[i]
    ensures Joined(strategy, b, t, s, keys[..i + 1])
         == Joined(strategy, b, t, s, keys[..i]) + SlotRule(strategy, At(b, keys[i]), At(t, keys[i]), At(s, keys[i]))
    ensures |Conflicting(b, t, s, keys[..i + 1])|
         == |Conflicting(b, t, s, keys[..i])| + if Conflicts(b, t, s, keys[i]) then 1 else 0
    ensures Offers(b, t, s, keys[..i + 1], list) == Offers(b, t, s, keys[..i], list)
         + if Conflicts(b, t, s, keys[i]) then [OfferAt(b, t, s, keys[i], list)] else []
  {
    assert keys[..i + 1] == keys[..i] + [keys[i]] && keys[..i + 1][..i] == keys[..i];
    JoinSlot(strategy, b, t, s, keys[..i], keys[i]);
    CountSlot(b, t, s, keys[..i], keys[i]);
  }

  lemma EveryConflict(b: State, t: State, s: State, keys: seq<bv64>)
    requires Enumerates(keys, b, t, s)
    ensures Conflicting(b, t, s, keys) == ConflictSlots(b, t, s)
  {
  }

  lemma EveryStatement(strategy: Strategy, b: State, t: State, s: State, keys: seq<bv64>)
    requires Enumerates(keys, b, t, s)
    ensures Joined(strategy, b, t, s, keys) == SlotMerge(strategy, b, t, s)
  {
    forall q | q in b + t + s ensures Slot(q) in keys { assert Slot(q) in Slots(b) + Slots(t) + Slots(s); }
  }
}
