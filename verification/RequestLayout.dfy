/** The canonical bytes of a mutation request as their documentation lays them out, by offsets: for
    each of the eleven shapes the header, the operation and the fields in order. */
module RequestLayout {
  import opened Basics
  import opened Wire
  import T = Text
  import opened Layout
  import opened Offsets
  import opened PartItems
  import opened RequestIdentity

  // ---- the documented layouts -------------------------------------------------------------------

  /** An optional field; an empty one is written as absent. */
  function Given(o: Option<Bytes>): Item {
    match o
    case None => Maybe(None)
    case Some(x) => Maybe(if |x| == 0 then None else Some(x))
  }

  function Bit(b: bool): Item { if b then Tag(1) else Tag(0) }

  function Refs(refs: seq<Bytes>): seq<Item> { [Number(|refs|)] + Texts(refs) }

  function Pair(p: Option<(Bytes, Bytes)>): seq<Item> {
    match p
    case None => [Tag(0)]
    case Some(pair) => [Tag(1), Text(pair.0), Text(pair.1)]
  }

  /** A decimal numeral: a minus sign if negative, then digits without a leading zero. */
  predicate Numeral(x: Bytes, n: int) {
    if n < 0 then |x| > 1 && x[0] == '-' as int && T.IsDecimal(x[1..], -n) else T.IsDecimal(x, n)
  }

  const V1 := "sculpin-ledger-request/v1\0"
  const V2 := "sculpin-ledger-request/v2\0"
  const BRANCH := "sculpin-ledger-branch-request/v1\0"
  const MERGE := "sculpin-ledger-merge-request/v1\0"

  /** Header and operation of a request. */
  function Opening(r: Request): (string, string) {
    match r
    case Prepare(_, _, _, _, _, _, _, _, _) => (V1, "prepare")
    case Accept(_, _, _, _, _, _) => (V1, "accept")
    case Reject(_, _, _, _) => (V1, "reject")
    case AcceptValidated(_, _, _, _, _, _, _) => (V2, "accept")
    case RejectValidated(_, _, _, _, _) => (V2, "reject")
    case Validate(_, _, _) => (V2, "validate")
    case BranchCreate(_, _, _, _, _, _, _) => (BRANCH, "branch_create")
    case BranchDelete(_, _, _) => (BRANCH, "branch_delete")
    case BranchRestore(_, _, _) => (BRANCH, "branch_restore")
    case MergePropose(_, _, _, _, _, _, _, _) => (MERGE, "merge_propose")
    case MergeApply(_, _, _, _, _, _) => (MERGE, "merge_apply")
  }

  /** The fields of a request in order; `refs` are its evidence references, `digits` its proposal id. */
  function Body(r: Request, refs: seq<Bytes>, digits: Bytes): seq<Item> {
    match r
    case Prepare(g, b, head, patch, activity, time, _, system, message) =>
      [Text(g), Text(b), Given(head), Text(patch), Text(activity), Given(time)]
      + (Refs(refs) + [Given(system), Text(message)])
    case Accept(g, b, head, candidate, reason, policy) =>
      [Text(g), Text(b), Given(head), Text(candidate), Given(reason), Text(policy)]
    case Reject(g, b, candidate, why) => [Text(g), Text(b), Text(candidate), Text(why)]
    case AcceptValidated(g, b, head, candidate, reason, validation, environment) =>
      [Text(g), Text(b), Given(head), Text(candidate), Given(reason), Word("validated"), Text(validation),
       Text(environment)]
    case RejectValidated(g, b, candidate, why, validation) =>
      [Text(g), Text(b), Text(candidate), Text(why), Text(validation)]
    case Validate(g, candidate, h) =>
      [Text(g), Text(candidate)]
      + (Pair(h.baseKb) + (Pair(h.ontology) + (Pair(h.shapes) + [Maybe(h.profile), Maybe(h.sources)])))
    case BranchCreate(g, name, source, from, guarded, validation, distinct) =>
      [Text(g), Text(name), Text(source), Given(from), Bit(guarded), Bit(validation), Bit(distinct)]
    case BranchDelete(g, name, reason) => [Text(g), Text(name), Given(reason)]
    case BranchRestore(g, name, reason) => [Text(g), Text(name), Given(reason)]
    case MergePropose(g, source, target, strategy, base, token, note, _) =>
      [Text(g), Text(source), Text(target), Text(strategy), Given(base), Text(token), Given(note)] + Refs(refs)
    case MergeApply(g, _, token, validated, semantics, reason) =>
      [Text(g), Text(digits), Text(token), Given(validated), Given(semantics), Given(reason)]
  }

  function Documented(r: Request, refs: seq<Bytes>, digits: Bytes): seq<Item> {
    [Literal(Opening(r).0), Word(Opening(r).1)] + Body(r, refs, digits)
  }

  /** The evidence in bytewise order, each reference once; the proposal id in decimal. */
  predicate Spelled(r: Request, refs: seq<Bytes>, digits: Bytes) {
    && (r.Prepare? || r.MergePropose? ==> Ascending(refs) && Members(refs) == Members(r.evidence))
    && (r.MergeApply? ==> Numeral(digits, r.proposal))
  }

  // ---- the parts of each shape ------------------------------------------------------------------

  lemma {:induction false} FieldItems(xs: seq<Bytes>, items: seq<seq<Part>>)
    requires |items| == |xs| && forall i :: 0 <= i < |xs| ==> items[i] == [PField(xs[i])]
    ensures Each(items) == Texts(xs)
  {
    if xs != [] {
      FieldItems(xs[1..], items[1..]);
      assert Ones(items[0]) == [Text(xs[0])];
      assert Texts(xs) == [Text(xs[0])] + Texts(xs[1..]);
    }
  }

  lemma EvidenceItems(given: seq<Bytes>, refs: seq<Bytes>)
    requires Ascending(refs) && Members(refs) == Members(given)
    ensures Shallow(EvidencePart(given)) && ItemsOf(EvidencePart(given)) == Refs(refs)
  {
    SortUniqueSorts(given);
    AscendingIsCanonical(refs, SortUnique(given));
    FieldItems(refs, EvidencePart(given).items);
  }

  lemma PairItems(p: Option<(Bytes, Bytes)>)
    ensures Shallow(PairPart(p)) && ItemsOf(PairPart(p)) == Pair(p)
  {
    if p.Some? {
      assert Ones([PField(p.value.0), PField(p.value.1)]) == [Text(p.value.0), Text(p.value.1)];
    }
  }

  /** The parts of a request are its documented fields. */
  predicate PartsAreBody(r: Request, refs: seq<Bytes>, digits: Bytes) {
    AllShallow(Parts(r)) && ItemsOfAll(Parts(r)) == Body(r, refs, digits)
  }

  lemma PrepareItems(r: Request, refs: seq<Bytes>, digits: Bytes)
    requires r.Prepare? && Spelled(r, refs, digits)
    ensures PartsAreBody(r, refs, digits)
  {
    var front := [PField(r.graph), PField(r.branch), Opt(r.expectedHead), PField(r.patch), PField(r.activity),
                  Opt(r.eventTime)];
    var back := [Opt(r.sourceSystem), PField(r.message)];
    EvidenceItems(r.evidence, refs);
    OnlySimple(back);
    OnePart(EvidencePart(r.evidence), back);
    SimpleParts(front, [EvidencePart(r.evidence)] + back);
    assert Parts(r) == front + ([EvidencePart(r.evidence)] + back);
    assert Ones(front) == [Text(r.graph), Text(r.branch), Given(r.expectedHead), Text(r.patch), Text(r.activity),
                           Given(r.eventTime)];
    assert Ones(back) == [Given(r.sourceSystem), Text(r.message)];
  }

  lemma ProposeItems(r: Request, refs: seq<Bytes>, digits: Bytes)
    requires r.MergePropose? && Spelled(r, refs, digits)
    ensures PartsAreBody(r, refs, digits)
  {
    var front := [PField(r.graph), PField(r.source), PField(r.target), PField(r.strategy), Opt(r.base),
                  PField(r.token), Opt(r.note)];
    EvidenceItems(r.evidence, refs);
    OnePart(EvidencePart(r.evidence), []);
    SimpleParts(front, [EvidencePart(r.evidence)] + []);
    assert Parts(r) == front + ([EvidencePart(r.evidence)] + []);
    assert Ones(front) == [Text(r.graph), Text(r.source), Text(r.target), Text(r.strategy), Given(r.base),
                           Text(r.token), Given(r.note)];
    assert Refs(refs) + [] == Refs(refs);
  }

  lemma ValidateItems(r: Request, refs: seq<Bytes>, digits: Bytes)
    requires r.Validate?
    ensures PartsAreBody(r, refs, digits)
  {
    var h := r.requested;
    var front, back := [PField(r.graph), PField(r.candidate)], [POpt(h.profile), POpt(h.sources)];
    var a, b, c := PairPart(h.baseKb), PairPart(h.ontology), PairPart(h.shapes);
    PairItems(h.baseKb);
    PairItems(h.ontology);
    PairItems(h.shapes);
    OnlySimple(back);
    OnePart(c, back);
    OnePart(b, [c] + back);
    OnePart(a, [b] + ([c] + back));
    SimpleParts(front, [a] + ([b] + ([c] + back)));
    assert Parts(r) == front + ([a] + ([b] + ([c] + back)));
    assert Ones(front) == [Text(r.graph), Text(r.candidate)];
    assert Ones(back) == [Maybe(h.profile), Maybe(h.sources)];
  }

  lemma NumeralIsDecimal(x: Bytes, n: int)
    requires Numeral(x, n)
    ensures x == Decimal(n)
  {
    if n < 0 { T.DigitsOfExactly(x[1..], -n); } else { T.DigitsOfExactly(x, n); }
  }

  lemma FirstItems(r: Request, refs: seq<Bytes>, digits: Bytes)
    requires r.Accept? || r.Reject? || r.RejectValidated?
    ensures PartsAreBody(r, refs, digits)
  {
    OnlySimple(Parts(r));
    assert Ones(Parts(r)) == Body(r, refs, digits);
  }

  lemma BranchItems(r: Request, refs: seq<Bytes>, digits: Bytes)
    requires r.BranchCreate? || r.BranchDelete? || r.BranchRestore?
    ensures PartsAreBody(r, refs, digits)
  {
    OnlySimple(Parts(r));
    assert Ones(Parts(r)) == Body(r, refs, digits);
  }

  lemma ApplyItems(r: Request, refs: seq<Bytes>, digits: Bytes)
    requires r.MergeApply? && Spelled(r, refs, digits)
    ensures PartsAreBody(r, refs, digits)
  {
    NumeralIsDecimal(digits, r.proposal);
    OnlySimple(Parts(r));
    assert Ones(Parts(r)) == Body(r, refs, digits);
  }

  lemma {:induction false} SameWritten(xs: seq<Item>, ys: seq<Item>)
    requires |xs| == |ys| && AllFit(xs) && AllFit(ys)
    requires forall i :: 0 <= i < |xs| ==> Written(xs[i]) == Written(ys[i])
    ensures Joined(xs) == Joined(ys)
  {
    if xs != [] { SameWritten(xs[1..], ys[1..]); }
  }

  /** A word is written as the text it spells. */
  lemma ValidatedIsJoined(r: Request, refs: seq<Bytes>, digits: Bytes)
    requires r.AcceptValidated? && Bounded(r)
    ensures AllFit(Body(r, refs, digits)) && Joined(Body(r, refs, digits)) == EncodeAll(Parts(r), Kinds(ShapeOf(r)))
  {
    var xs, ys := Body(r, refs, digits), Ones(Parts(r));
    OnesAreJoined(Parts(r), Kinds(ShapeOf(r)));
    assert IsAscii("validated");
    forall i | 0 <= i < |xs| ensures Fit(xs[i]) && Written(xs[i]) == Written(ys[i]) {
      assert i == 5 || xs[i] == ys[i];
    }
    SameWritten(xs, ys);
  }

  lemma ItemsAreBody(r: Request, refs: seq<Bytes>, digits: Bytes)
    requires Spelled(r, refs, digits) && !r.AcceptValidated?
    ensures PartsAreBody(r, refs, digits)
  {
    match ShapeOf(r)
    case SPrepare => PrepareItems(r, refs, digits);
    case SMergePropose => ProposeItems(r, refs, digits);
    case SMergeApply => ApplyItems(r, refs, digits);
    case SValidate => ValidateItems(r, refs, digits);
    case SAccept | SReject | SRejectValidated => FirstItems(r, refs, digits);
    case SBranchCreate | SBranchDelete | SBranchRestore => BranchItems(r, refs, digits);
  }

  lemma BodyIsJoined(r: Request, refs: seq<Bytes>, digits: Bytes)
    requires Bounded(r) && Spelled(r, refs, digits)
    ensures AllFit(Body(r, refs, digits)) && Joined(Body(r, refs, digits)) == EncodeAll(Parts(r), Kinds(ShapeOf(r)))
  {
    if r.AcceptValidated? {
      ValidatedIsJoined(r, refs, digits);
    } else {
      ItemsAreBody(r, refs, digits);
      AllAreJoined(Parts(r), Kinds(ShapeOf(r)));
    }
  }

  lemma RequestHeadersAreSpelled()
    ensures IsAscii(V1) && Ascii(V1) == REQUEST_HEADER && IsAscii(V2) && Ascii(V2) == REQUEST_V2_HEADER
  {
  }

  lemma OtherHeadersAreSpelled()
    ensures IsAscii(BRANCH) && Ascii(BRANCH) == BRANCH_HEADER && IsAscii(MERGE) && Ascii(MERGE) == MERGE_HEADER
  {
  }

  lemma HeaderIsSpelled(r: Request)
    ensures IsAscii(Opening(r).0) && Ascii(Opening(r).0) == Header(ShapeOf(r))
  {
    RequestHeadersAreSpelled();
    OtherHeadersAreSpelled();
  }

  lemma OperationIsSpelled(r: Request)
    ensures IsAscii(Opening(r).1) && |Opening(r).1| < 16 && Ascii(Opening(r).1) == Operation(ShapeOf(r))
  {
  }

  /** For each of the eleven shapes, the canonical bytes are the documented layout and nothing else. */
  lemma EncodesAsDocumented(r: Request, refs: seq<Bytes>, digits: Bytes, b: Bytes)
    requires Bounded(r) && Spelled(r, refs, digits)
    ensures LaidOut(b, 0, Documented(r, refs, digits)) <==> b == CanonicalBytes(r)
  {
    BodyIsJoined(r, refs, digits);
    HeaderIsSpelled(r);
    OperationIsSpelled(r);
    JoinedTwo(Literal(Opening(r).0), Word(Opening(r).1), Body(r, refs, digits));
    LaidOutExactly(b, Documented(r, refs, digits));
  }

  /** Every request has its references and its numeral. */
  lemma HasASpelling(r: Request) returns (refs: seq<Bytes>, digits: Bytes)
    ensures Spelled(r, refs, digits)
  {
    refs, digits := [], [];
    if r.Prepare? || r.MergePropose? {
      SortUniqueSorts(r.evidence);
      refs := SortUnique(r.evidence);
    }
    if r.MergeApply? {
      var n := if r.proposal < 0 then -r.proposal else r.proposal;
      T.DigitsOfExactly(T.DigitsOf(n), n);
      digits := Decimal(r.proposal);
      if r.proposal < 0 { assert digits[1..] == T.DigitsOf(-r.proposal); }
    }
  }
}
