/** Statements packed into 64 bits, slots, and the three-way merge in two forms: the closed set
    formula of the benchmark's oracle and the slot-by-slot rule it must agree with. */
module ThreeWay {

  type Stmt = bv64
  type State = set<Stmt>

  const MAX_ENTITY: bv64 := 0x40_0000
  const MAX_VALUE: bv64 := 0x2_0000_0000

  // ---- packing ----------------------------------------------------------------------------

  datatype Fields = Fields(graph: bv64, subject: bv64, predicate_: bv64, literal: bool, object_: bv64)

  predicate InRange(f: Fields) {
    f.graph < 4 && f.subject < MAX_ENTITY && f.predicate_ < 64 && f.object_ < MAX_VALUE
  }

  function Pack(f: Fields): Stmt {
    (f.graph << 62) | (f.subject << 40) | (f.predicate_ << 34) | ((if f.literal then 1 else 0) << 33) | f.object_
  }

  function Slot(s: Stmt): bv64 { s >> 34 }

  function Unpack(s: Stmt): Fields {
    Fields(s >> 62, (s >> 40) & (MAX_ENTITY - 1), (s >> 34) & 63, (s >> 33) & 1 == 1, s & (MAX_VALUE - 1))
  }

  /** Packing loses nothing. */
  lemma PackRoundTrip(f: Fields)
    requires InRange(f)
    ensures Unpack(Pack(f)) == f
  {
  }

  lemma UnpackRoundTrip(s: Stmt)
    ensures InRange(Unpack(s)) && Pack(Unpack(s)) == s
  {
  }

  function Triple(s: Stmt): (bv64, bv64, bv64) {
    (Unpack(s).graph, Unpack(s).subject, Unpack(s).predicate_)
  }

  function Join(t: (bv64, bv64, bv64)): bv64 {
    (t.0 << 28) | (t.1 << 6) | t.2
  }

  function Cut(k: bv64): (bv64, bv64, bv64) {
    (k >> 28, (k >> 6) & (MAX_ENTITY - 1), k & 63)
  }

  lemma SlotIsTriple(s: Stmt)
    ensures Join(Triple(s)) == Slot(s) && Cut(Slot(s)) == Triple(s)
  {
  }

  /** A slot is a graph, a subject and a predicate. */
  lemma SlotNamesTheTriple(a: Stmt, b: Stmt)
    ensures Slot(a) == Slot(b) <==> Triple(a) == Triple(b)
  {
    SlotIsTriple(a);
    SlotIsTriple(b);
  }

  // ---- the slot-by-slot rule ---------------------------------------------------------------

  datatype Strategy = Abort | TakeTarget | TakeSource | Union

  function At(x: State, k: bv64): State {
    set q | q in x && Slot(q) == k
  }

  /** Both sides changed the slot, and differently. */
  predicate Conflicts(b: State, t: State, s: State, k: bv64) {
    At(t, k) != At(b, k) && At(s, k) != At(b, k) && At(t, k) != At(s, k)
  }

  function Slots(x: State): set<bv64> {
    set q | q in x :: Slot(q)
  }

  function ConflictSlots(b: State, t: State, s: State): set<bv64> {
    set k | k in Slots(b) + Slots(t) + Slots(s) && Conflicts(b, t, s, k)
  }

  function SlotRule(strategy: Strategy, b: State, t: State, s: State): State {
    if t == b || t == s then s
    else if s == b then t
    else match strategy
      case TakeTarget => t
      case TakeSource => s
      case Union => t + s
      case Abort => {}
  }

  function SlotMerge(strategy: Strategy, b: State, t: State, s: State): State {
    set q | q in b + t + s && q in SlotRule(strategy, At(b, Slot(q)), At(t, Slot(q)), At(s, Slot(q)))
  }

  /** An unresolvable merge: `abort` with some slot in conflict. */
  predicate Refused(strategy: Strategy, b: State, t: State, s: State) {
    strategy == Abort && ConflictSlots(b, t, s) != {}
  }

  lemma ConflictSlotsAreAll(b: State, t: State, s: State, k: bv64)
    ensures k in ConflictSlots(b, t, s) <==> Conflicts(b, t, s, k)
  {
    if k !in Slots(b) + Slots(t) + Slots(s) {
      assert At(b, k) == {} && At(t, k) == {} && At(s, k) == {};
    }
  }

  // ---- the set formula -----------------------------------------------------------------------

  function Without(x: State, designed: set<bv64>): State {
    set q | q in x && Slot(q) !in designed
  }

  /** `(T - (B - S)) + (S - B)` outside the designed slots. */
  function Formula(b: State, t: State, s: State): State {
    (t - (b - s)) + (s - b)
  }

  function Resolved(strategy: Strategy, t: State, s: State, k: bv64): State {
    match strategy
    case TakeTarget => At(t, k)
    case TakeSource => At(s, k)
    case Union => At(t, k) + At(s, k)
    case Abort => {}
  }

  /** The oracle's loop over the designed slots. */
  method OracleMerge(strategy: Strategy, b: State, t: State, s: State, designed: set<bv64>) returns (m: State)
    requires designed == ConflictSlots(b, t, s) && !Refused(strategy, b, t, s)
    ensures m == SlotMerge(strategy, b, t, s)
  {
    m := Formula(Without(b, designed), Without(t, designed), Without(s, designed));
    var left := designed;
    while left != {}
      invariant left <= designed
      invariant forall q :: q in m <==>
        if Slot(q) in designed then Slot(q) !in left && q in Resolved(strategy, t, s, Slot(q))
        else q in Formula(b, t, s)
      decreases |left|
    {
      assert (forall k :: k !in left) ==> left == {};
      var k :| k in left;
      m, left := m + Resolved(strategy, t, s, k), left - {k};
    }
    forall q ensures q in m <==> q in SlotMerge(strategy, b, t, s) {
      ConflictSlotsAreAll(b, t, s, Slot(q));
      FormulaIsTheRule(strategy, b, t, s, q);
    }
  }

  /** Where a slot is not in conflict the set formula is the slot rule, statement by statement. */
  lemma FormulaIsTheRule(strategy: Strategy, b: State, t: State, s: State, q: Stmt)
    ensures !Conflicts(b, t, s, Slot(q)) ==> (q in Formula(b, t, s) <==> q in SlotMerge(strategy, b, t, s))
    ensures Conflicts(b, t, s, Slot(q)) ==>
      (q in Resolved(strategy, t, s, Slot(q)) <==> q in SlotMerge(strategy, b, t, s))
  {
    var k := Slot(q);
    assert q in At(b, k) <==> q in b;
    assert q in At(t, k) <==> q in t;
    assert q in At(s, k) <==> q in s;
  }

  // ---- laws of the merge ---------------------------------------------------------------------

  /** What becomes of one slot: the side that changed it wins, alike changes stand, and in a conflict
      the target's statements, the source's, both or none, as the strategy says. */
  lemma SlotOfTheMerge(strategy: Strategy, b: State, t: State, s: State, k: bv64)
    ensures
      var m := At(SlotMerge(strategy, b, t, s), k);
      && (At(t, k) == At(b, k) ==> m == At(s, k)) && (At(s, k) == At(b, k) ==> m == At(t, k))
      && (At(t, k) == At(s, k) ==> m == At(t, k))
      && (Conflicts(b, t, s, k) ==>
            && (strategy == TakeTarget ==> m == At(t, k)) && (strategy == TakeSource ==> m == At(s, k))
            && (strategy == Union ==> m == At(t, k) + At(s, k)) && (strategy == Abort ==> m == {}))
  {
    var m := At(SlotMerge(strategy, b, t, s), k);
    var rule := SlotRule(strategy, At(b, k), At(t, k), At(s, k));
    assert rule <= At(t, k) + At(s, k);
    forall q ensures q in m <==> q in rule {
      assert q in rule ==> Slot(q) == k && q in b + t + s;
    }
  }

  /** Union is take-target joined with take-source. */
  lemma UnionJoinsBothSides(b: State, t: State, s: State)
    ensures SlotMerge(Union, b, t, s) == SlotMerge(TakeTarget, b, t, s) + SlotMerge(TakeSource, b, t, s)
  {
    forall q
      ensures q in SlotMerge(Union, b, t, s) <==>
        q in SlotMerge(TakeTarget, b, t, s) || q in SlotMerge(TakeSource, b, t, s)
    {
      FormulaIsTheRule(Union, b, t, s, q);
      FormulaIsTheRule(TakeTarget, b, t, s, q);
      FormulaIsTheRule(TakeSource, b, t, s, q);
    }
  }

  function Mirror(strategy: Strategy): Strategy {
    match strategy
    case TakeTarget => TakeSource
    case TakeSource => TakeTarget
    case _ => strategy
  }

  /** Exchanging the sides exchanges take-target and take-source, and nothing else. */
  lemma MergeIsSymmetric(strategy: Strategy, b: State, t: State, s: State)
    ensures SlotMerge(strategy, b, t, s) == SlotMerge(Mirror(strategy), b, s, t)
    ensures ConflictSlots(b, t, s) == ConflictSlots(b, s, t)
  {
    forall k ensures k in ConflictSlots(b, t, s) <==> k in ConflictSlots(b, s, t) {
      ConflictSlotsAreAll(b, t, s, k);
      ConflictSlotsAreAll(b, s, t, k);
    }
    forall q ensures q in SlotMerge(strategy, b, t, s) <==> q in SlotMerge(Mirror(strategy), b, s, t) {
      FormulaIsTheRule(strategy, b, t, s, q);
      FormulaIsTheRule(Mirror(strategy), b, s, t, q);
    }
  }

  /** Without conflicts the strategy does not matter. */
  lemma StrategyMattersOnlyOnConflicts(x: Strategy, y: Strategy, b: State, t: State, s: State)
    requires ConflictSlots(b, t, s) == {}
    ensures SlotMerge(x, b, t, s) == SlotMerge(y, b, t, s) == Formula(b, t, s)
  {
    forall q
      ensures q in SlotMerge(x, b, t, s) <==> q in Formula(b, t, s)
      ensures q in SlotMerge(y, b, t, s) <==> q in Formula(b, t, s)
    {
      ConflictSlotsAreAll(b, t, s, Slot(q));
      FormulaIsTheRule(x, b, t, s, q);
      FormulaIsTheRule(y, b, t, s, q);
    }
  }

  /** A side that did not change takes the other side's state, without conflicts. */
  lemma UnchangedSideYields(strategy: Strategy, b: State, x: State)
    ensures ConflictSlots(b, b, x) == {} && ConflictSlots(b, x, b) == {}
    ensures SlotMerge(strategy, b, b, x) == x && SlotMerge(strategy, b, x, b) == x
  {
    StrategyMattersOnlyOnConflicts(strategy, strategy, b, b, x);
    StrategyMattersOnlyOnConflicts(strategy, strategy, b, x, b);
    assert Formula(b, b, x) == x && Formula(b, x, b) == x;
  }
}
