/** The canonical bytes of a mutation request: eleven shapes in four header domains. Two requests
    have the same bytes exactly when they are the same request up to evidence order and duplication
    and to empty optional fields. */
module RequestIdentity {
  import opened Basics
  import opened Wire
  import opened Text
  import opened Layout

  /** Opaque context hints of a validation request. */
  datatype Hints = Hints(baseKb: Option<(Bytes, Bytes)>, ontology: Option<(Bytes, Bytes)>,
                         shapes: Option<(Bytes, Bytes)>,
                         profile: Option<Bytes>, sources: Option<Bytes>)

  datatype Request =
    | Prepare(graph: Bytes, branch: Bytes, expectedHead: Option<Bytes>, patch: Bytes, activity: Bytes,
              eventTime: Option<Bytes>, evidence: seq<Bytes>, sourceSystem: Option<Bytes>, message: Bytes)
    | Accept(graph: Bytes, branch: Bytes, expectedHead: Option<Bytes>, candidate: Bytes, reason: Option<Bytes>,
             policy: Bytes)
    | Reject(graph: Bytes, branch: Bytes, candidate: Bytes, why: Bytes)
    | AcceptValidated(graph: Bytes, branch: Bytes, expectedHead: Option<Bytes>, candidate: Bytes, reason: Option<Bytes>,
                      validation: Bytes, environment: Bytes)
    | RejectValidated(graph: Bytes, branch: Bytes, candidate: Bytes, why: Bytes, validation: Bytes)
    | Validate(graph: Bytes, candidate: Bytes, requested: Hints)
    | BranchCreate(graph: Bytes, name: Bytes, source: Bytes, fromCommit: Option<Bytes>,
                   guarded: bool, requireValidation: bool, requireDistinctReviewer: bool)
    | BranchDelete(graph: Bytes, name: Bytes, reason: Option<Bytes>)
    | BranchRestore(graph: Bytes, name: Bytes, reason: Option<Bytes>)
    | MergePropose(graph: Bytes, source: Bytes, target: Bytes, strategy: Bytes, base: Option<Bytes>, token: Bytes,
                   note: Option<Bytes>, evidence: seq<Bytes>)
    | MergeApply(graph: Bytes, proposal: int, token: Bytes, validated: Option<Bytes>, semantics: Option<Bytes>,
                 reason: Option<Bytes>)

  datatype Shape = SPrepare | SAccept | SReject | SAcceptValidated | SRejectValidated | SValidate
                 | SBranchCreate | SBranchDelete | SBranchRestore | SMergePropose | SMergeApply

  function ShapeOf(r: Request): Shape {
    match r
    case Prepare(_, _, _, _, _, _, _, _, _) => SPrepare
    case Accept(_, _, _, _, _, _) => SAccept
    case Reject(_, _, _, _) => SReject
    case AcceptValidated(_, _, _, _, _, _, _) => SAcceptValidated
    case RejectValidated(_, _, _, _, _) => SRejectValidated
    case Validate(_, _, _) => SValidate
    case BranchCreate(_, _, _, _, _, _, _) => SBranchCreate
    case BranchDelete(_, _, _) => SBranchDelete
    case BranchRestore(_, _, _) => SBranchRestore
    case MergePropose(_, _, _, _, _, _, _, _) => SMergePropose
    case MergeApply(_, _, _, _, _, _) => SMergeApply
  }

  // ---- header domains and operations -------------------------------------------------------------

  const REQUEST_HEADER := Ascii("sculpin-ledger-request/v1\0")
  const REQUEST_V2_HEADER := Ascii("sculpin-ledger-request/v2\0")
  const BRANCH_HEADER := Ascii("sculpin-ledger-branch-request/v1\0")
  const MERGE_HEADER := Ascii("sculpin-ledger-merge-request/v1\0")

  function Header(s: Shape): Bytes {
    match s
    case SPrepare | SAccept | SReject => REQUEST_HEADER
    case SAcceptValidated | SRejectValidated | SValidate => REQUEST_V2_HEADER
    case SBranchCreate | SBranchDelete | SBranchRestore => BRANCH_HEADER
    case SMergePropose | SMergeApply => MERGE_HEADER
  }

  function Operation(s: Shape): Bytes {
    match s
    case SPrepare => Ascii("prepare")
    case SAccept | SAcceptValidated => Ascii("accept")
    case SReject | SRejectValidated => Ascii("reject")
    case SValidate => Ascii("validate")
    case SBranchCreate => Ascii("branch_create")
    case SBranchDelete => Ascii("branch_delete")
    case SBranchRestore => Ascii("branch_restore")
    case SMergePropose => Ascii("merge_propose")
    case SMergeApply => Ascii("merge_apply")
  }

  /** Where two headers differ, whatever follows them. */
  lemma HeadersAreDisjoint(s: Shape, t: Shape, a: Bytes, b: Bytes)
    requires Header(s) + a == Header(t) + b
    ensures Header(s) == Header(t) && a == b
  {
    HeaderFacts();
    assert (Header(s) + a)[15] == Header(s)[15] && (Header(t) + b)[15] == Header(t)[15];
    assert (Header(s) + a)[24] == Header(s)[24] && (Header(t) + b)[24] == Header(t)[24];
    assert a == (Header(s) + a)[|Header(s)|..] && b == (Header(t) + b)[|Header(t)|..];
  }

  lemma HeaderFacts()
    ensures |REQUEST_HEADER| == 26 && REQUEST_HEADER[15] == 'r' as int && REQUEST_HEADER[24] == '1' as int
    ensures |REQUEST_V2_HEADER| == 26 && REQUEST_V2_HEADER[15] == 'r' as int && REQUEST_V2_HEADER[24] == '2' as int
    ensures |BRANCH_HEADER| == 33 && BRANCH_HEADER[15] == 'b' as int
    ensures |MERGE_HEADER| == 32 && MERGE_HEADER[15] == 'm' as int
  {
  }

  lemma OperationFacts()
    ensures forall s :: |Operation(s)| < 16
    ensures forall s, t :: Header(s) == Header(t) && Operation(s) == Operation(t) ==> s == t
  {
    HeaderFacts();
    forall s, t | Header(s) == Header(t) && Operation(s) == Operation(t) ensures s == t {
      assert |Operation(s)| == |Operation(t)| && Operation(s)[0] == Operation(t)[0];
      if |Operation(s)| == 13 { assert Operation(s)[7] == Operation(t)[7]; }
    }
  }

  // ---- the fields of each shape ------------------------------------------------------------------

  function Decimal(n: int): Bytes {
    if n < 0 then [45] + DigitsOf(-n) else DigitsOf(n)
  }

  function Flag(b: bool): Part { PByte(if b then 1 else 0) }

  function Opt(o: Option<Bytes>): Part { POpt(NormOpt(o)) }

  function Parts(r: Request): seq<Part> {
    match r
    case Prepare(g, b, head, patch, activity, time, evidence, system, message) =>
      [PField(g), PField(b), Opt(head), PField(patch), PField(activity), Opt(time), EvidencePart(evidence),
       Opt(system), PField(message)]
    case Accept(g, b, head, candidate, reason, policy) =>
      [PField(g), PField(b), Opt(head), PField(candidate), Opt(reason), PField(policy)]
    case Reject(g, b, candidate, why) => [PField(g), PField(b), PField(candidate), PField(why)]
    case AcceptValidated(g, b, head, candidate, reason, validation, environment) =>
      [PField(g), PField(b), Opt(head), PField(candidate), Opt(reason), PField(Ascii("validated")),
       PField(validation), PField(environment)]
    case RejectValidated(g, b, candidate, why, validation) =>
      [PField(g), PField(b), PField(candidate), PField(why), PField(validation)]
    case Validate(g, candidate, h) =>
      [PField(g), PField(candidate), PairPart(h.baseKb), PairPart(h.ontology), PairPart(h.shapes), POpt(h.profile),
       POpt(h.sources)]
    case BranchCreate(g, name, source, from, guarded, validation, distinct) =>
      [PField(g), PField(name), PField(source), Opt(from), Flag(guarded), Flag(validation), Flag(distinct)]
    case BranchDelete(g, name, reason) => [PField(g), PField(name), Opt(reason)]
    case BranchRestore(g, name, reason) => [PField(g), PField(name), Opt(reason)]
    case MergePropose(g, source, target, strategy, base, token, note, evidence) =>
      [PField(g), PField(source), PField(target), PField(strategy), Opt(base), PField(token), Opt(note),
       EvidencePart(evidence)]
    case MergeApply(g, proposal, token, validated, semantics, reason) =>
      [PField(g), PField(Decimal(proposal)), PField(token), Opt(validated), Opt(semantics), Opt(reason)]
  }

  const EVIDENCE := KList([KField])
  const PAIR := KGroup([KField, KField])

  function Kinds(s: Shape): seq<Kind> {
    match s
    case SPrepare => [KField, KField, KOpt, KField, KField, KOpt, EVIDENCE, KOpt, KField]
    case SAccept => [KField, KField, KOpt, KField, KOpt, KField]
    case SReject => [KField, KField, KField, KField]
    case SAcceptValidated => [KField, KField, KOpt, KField, KOpt, KField, KField, KField]
    case SRejectValidated => [KField, KField, KField, KField, KField]
    case SValidate => [KField, KField, PAIR, PAIR, PAIR, KOpt, KOpt]
    case SBranchCreate => [KField, KField, KField, KOpt, KByte, KByte, KByte]
    case SBranchDelete | SBranchRestore => [KField, KField, KOpt]
    case SMergePropose => [KField, KField, KField, KField, KOpt, KField, KOpt, EVIDENCE]
    case SMergeApply => [KField, KField, KField, KOpt, KOpt, KOpt]
  }

  /** Every length fits the 32-bit prefixes the encoder writes. */
  predicate Bounded(r: Request) {
    FitsAll(Parts(r), Kinds(ShapeOf(r)))
  }

  function CanonicalBytes(r: Request): Bytes
    requires Bounded(r)
  {
    var s := ShapeOf(r);
    OperationFacts();
    Header(s) + (Field(Operation(s)) + EncodeAll(Parts(r), Kinds(s)))
  }

  // ---- identity --------------------------------------------------------------------------------------

  /** What a request means: evidence is a set, an empty optional field is absent. */
  function Normal(r: Request): Request {
    match r
    case Prepare(g, b, head, patch, activity, time, evidence, system, message) =>
      Prepare(g, b, NormOpt(head), patch, activity, NormOpt(time), SortUnique(evidence), NormOpt(system), message)
    case Accept(g, b, head, candidate, reason, policy) =>
      Accept(g, b, NormOpt(head), candidate, NormOpt(reason), policy)
    case AcceptValidated(g, b, head, candidate, reason, v, e) =>
      AcceptValidated(g, b, NormOpt(head), candidate, NormOpt(reason), v, e)
    case BranchCreate(g, n, source, from, x, y, z) => BranchCreate(g, n, source, NormOpt(from), x, y, z)
    case BranchDelete(g, n, reason) => BranchDelete(g, n, NormOpt(reason))
    case BranchRestore(g, n, reason) => BranchRestore(g, n, NormOpt(reason))
    case MergePropose(g, source, target, strategy, base, token, note, evidence) =>
      MergePropose(g, source, target, strategy, NormOpt(base), token, NormOpt(note), SortUnique(evidence))
    case MergeApply(g, n, token, v, e, reason) => MergeApply(g, n, token, NormOpt(v), NormOpt(e), NormOpt(reason))
    case _ => r
  }

  lemma DecimalIsInjective(m: int, n: int)
    requires Decimal(m) == Decimal(n)
    ensures m == n
  {
    DigitsRoundTrip(if m < 0 then -m else m);
    DigitsRoundTrip(if n < 0 then -n else n);
    assert Decimal(m)[0] == Decimal(n)[0];
    if m < 0 && n < 0 { assert Decimal(m)[1..] == DigitsOf(-m) && Decimal(n)[1..] == DigitsOf(-n); }
  }

  lemma EvidenceIsInjective(a: seq<Bytes>, b: seq<Bytes>)
    requires EvidencePart(a) == EvidencePart(b)
    ensures SortUnique(a) == SortUnique(b)
  {
    var x, y := SortUnique(a), SortUnique(b);
    var p, q := EvidencePart(a).items, EvidencePart(b).items;
    assert |x| == |p| == |q| == |y|;
    forall i | 0 <= i < |x| ensures x[i] == y[i] { assert p[i] == [PField(x[i])] && q[i] == [PField(y[i])]; }
  }

  /** Normal requests have equal parts and kinds, and conversely. */
  lemma PartsAreTheNormalRequest(a: Request, b: Request)
    requires ShapeOf(a) == ShapeOf(b)
    ensures Parts(a) == Parts(b) <==> Normal(a) == Normal(b)
  {
    if Parts(a) == Parts(b) {
      var x, y := Parts(a), Parts(b);
      match ShapeOf(a)
      case SPrepare => assert x[6] == y[6]; EvidenceIsInjective(a.evidence, b.evidence); PrepareParts(a, b);
      case SMergePropose => assert x[7] == y[7]; EvidenceIsInjective(a.evidence, b.evidence); ProposeParts(a, b);
      case SMergeApply => assert x[1] == y[1]; DecimalIsInjective(a.proposal, b.proposal); OtherParts(a, b);
      case _ => OtherParts(a, b);
    } else {
      NormalParts(a, b);
    }
  }

  lemma NormalParts(a: Request, b: Request)
    requires Parts(a) != Parts(b)
    ensures Normal(a) != Normal(b)
  {
  }

  lemma PrepareParts(a: Request, b: Request)
    requires a.Prepare? && b.Prepare? && Parts(a) == Parts(b) && SortUnique(a.evidence) == SortUnique(b.evidence)
    ensures Normal(a) == Normal(b)
  {
    var x, y := Parts(a), Parts(b);
    assert x[0] == y[0] && x[1] == y[1] && x[2] == y[2] && x[3] == y[3] && x[4] == y[4] && x[5] == y[5]
      && x[7] == y[7] && x[8] == y[8];
  }

  lemma ProposeParts(a: Request, b: Request)
    requires a.MergePropose? && b.MergePropose? && Parts(a) == Parts(b)
      && SortUnique(a.evidence) == SortUnique(b.evidence)
    ensures Normal(a) == Normal(b)
  {
    var x, y := Parts(a), Parts(b);
    assert x[0] == y[0] && x[1] == y[1] && x[2] == y[2] && x[3] == y[3] && x[4] == y[4] && x[5] == y[5] && x[6] == y[6];
  }

  lemma OtherParts(a: Request, b: Request)
    requires ShapeOf(a) == ShapeOf(b) && !a.Prepare? && !a.MergePropose? && Parts(a) == Parts(b)
    requires a.MergeApply? ==> a.proposal == b.proposal
    ensures Normal(a) == Normal(b)
  {
    var x, y := Parts(a), Parts(b);
    assert x[0] == y[0] && x[1] == y[1] && x[2] == y[2];
    assert |x| > 3 ==> x[3] == y[3];
    assert |x| > 4 ==> x[4] == y[4];
    assert |x| > 5 ==> x[5] == y[5];
    assert |x| > 6 ==> x[6] == y[6];
    assert |x| > 7 ==> x[7] == y[7];
    if a.Validate? { HintsAreInjective(a.requested, b.requested); }
  }

  lemma HintsAreInjective(h: Hints, k: Hints)
    requires PairPart(h.baseKb) == PairPart(k.baseKb) && PairPart(h.ontology) == PairPart(k.ontology)
      && PairPart(h.shapes) == PairPart(k.shapes)
    requires h.profile == k.profile && h.sources == k.sources
    ensures h == k
  {
    PairIsInjective(h.baseKb, k.baseKb);
    PairIsInjective(h.ontology, k.ontology);
    PairIsInjective(h.shapes, k.shapes);
  }

  lemma PairIsInjective(p: Option<(Bytes, Bytes)>, q: Option<(Bytes, Bytes)>)
    requires PairPart(p) == PairPart(q)
    ensures p == q
  {
    if p.Some? {
      var x, y := PairPart(p).g.value, PairPart(q).g.value;
      assert x[0] == y[0] && x[1] == y[1];
    }
  }

  /** Requests of any of the eleven shapes share canonical bytes exactly when they are the same
      request once evidence is read as a set and empty optional fields as absent. */
  lemma SameBytesExactlyWhenSameRequest(a: Request, b: Request)
    requires Bounded(a) && Bounded(b)
    ensures CanonicalBytes(a) == CanonicalBytes(b) <==> Normal(a) == Normal(b)
  {
    var s, t := ShapeOf(a), ShapeOf(b);
    OperationFacts();
    if CanonicalBytes(a) == CanonicalBytes(b) {
      var x, y := EncodeAll(Parts(a), Kinds(s)), EncodeAll(Parts(b), Kinds(t));
      HeadersAreDisjoint(s, t, Field(Operation(s)) + x, Field(Operation(t)) + y);
      FieldCancels(Operation(s), Operation(t), x, y);
      assert s == t && x + [] == x && y + [] == y;
      PartsCancel(Parts(a), Parts(b), Kinds(s), [], []);
      PartsAreTheNormalRequest(a, b);
    } else if Normal(a) == Normal(b) {
      NormalKeepsShape(a);
      NormalKeepsShape(b);
      PartsAreTheNormalRequest(a, b);
    }
  }

  lemma NormalKeepsShape(r: Request)
    ensures ShapeOf(Normal(r)) == ShapeOf(r)
  {
  }
}
