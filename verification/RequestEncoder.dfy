/** The request encoder: pushes onto a byte buffer, field by field. What it leaves in the buffer is
    the canonical bytes whose identity law is proved in `RequestIdentity`. */
module RequestEncoder {
  import opened Basics
  import opened Wire
  import opened Layout
  import opened RequestIdentity

  /** A head followed by the first `n` parts of a layout. */
  function Filled(head: Bytes, ps: seq<Part>, ks: seq<Kind>, n: nat): Bytes
    requires FitsAll(ps, ks) && n <= |ps|
  {
    if n == 0 then head else Filled(head, ps, ks, n - 1) + Encode(ps[n - 1], ks[n - 1])
  }

  lemma {:induction false} FilledIsEncoding(head: Bytes, ps: seq<Part>, ks: seq<Kind>, n: nat)
    requires FitsAll(ps, ks) && n <= |ps|
    ensures Filled(head, ps, ks, n) + EncodeAll(ps[n..], ks[n..]) == head + EncodeAll(ps, ks)
  {
    if n == 0 {
      assert ps[0..] == ps && ks[0..] == ks;
    } else {
      FilledIsEncoding(head, ps, ks, n - 1);
      assert ps[n - 1..][1..] == ps[n..] && ks[n - 1..][1..] == ks[n..];
      Associates(Filled(head, ps, ks, n - 1), Encode(ps[n - 1], ks[n - 1]), EncodeAll(ps[n..], ks[n..]));
    }
  }

  /** A byte buffer, with the layout it is being filled by: the first `at` parts have been pushed. */
  class Buffer {
    var bytes: Bytes
    ghost var head: Bytes
    ghost const parts: seq<Part>
    ghost const kinds: seq<Kind>
    ghost var at: nat

    ghost predicate Valid()
      reads this
    {
      FitsAll(parts, kinds) && at <= |parts| && bytes == Filled(head, parts, kinds, at)
    }

    ghost predicate Expects(p: Part, k: Kind)
      reads this
    {
      Valid() && at < |parts| && parts[at] == p && kinds[at] == k
    }

    constructor (header: Bytes, ghost parts: seq<Part>, ghost kinds: seq<Kind>)
      requires FitsAll(parts, kinds)
      ensures Valid() && head == header && this.parts == parts && this.kinds == kinds && at == 0
    {
      bytes, at := header, 0;
      this.head, this.parts, this.kinds := header, parts, kinds;
    }

    method Push(x: Bytes)
      requires Valid() && at < |parts| && x == Encode(parts[at], kinds[at])
      modifies `bytes, `at
      ensures Valid() && at == old(at) + 1
    {
      bytes, at := bytes + x, at + 1;
    }

    /** The operation's name belongs to the head. */
    method PushName(x: Bytes)
      requires Valid() && at == 0 && Short(x)
      modifies `bytes, `head
      ensures Valid() && head == old(head) + Wire.Field(x)
    {
      bytes := bytes + (U32(|x|) + x);
      head := head + (U32(|x|) + x);
    }

    method PushField(x: Bytes)
      requires Expects(PField(x), KField)
      modifies `bytes, `at
      ensures Valid() && at == old(at) + 1
    {
      assert Fits(parts[at], kinds[at]);
      Push(U32(|x|) + x);
    }

    /** Absent and empty are the same. */
    method PushOptional(o: Option<Bytes>)
      requires Expects(Opt(o), KOpt)
      modifies `bytes, `at
      ensures Valid() && at == old(at) + 1
    {
      assert Fits(parts[at], kinds[at]);
      if o.None? || o.value == [] { Push([0]); } else { Push([1] + Wire.Field(o.value)); }
    }

    method PushHint(o: Option<Bytes>)
      requires Expects(POpt(o), KOpt)
      modifies `bytes, `at
      ensures Valid() && at == old(at) + 1
    {
      assert Fits(parts[at], kinds[at]);
      if o.None? { Push([0]); } else { Push([1] + Wire.Field(o.value)); }
    }

    method PushPair(p: Option<(Bytes, Bytes)>)
      requires Expects(PairPart(p), PAIR)
      modifies `bytes, `at
      ensures Valid() && at == old(at) + 1
    {
      assert Fits(parts[at], kinds[at]);
      if p.None? {
        Push([0]);
      } else {
        PairBytes(p.value.0, p.value.1);
        Push([1] + (Wire.Field(p.value.0) + Wire.Field(p.value.1)));
      }
    }

    method PushFlag(b: bool)
      requires Expects(Flag(b), KByte)
      modifies `bytes, `at
      ensures Valid() && at == old(at) + 1
    {
      Push([if b then 1 else 0]);
    }

    /** Sorted, without duplicates, counted. */
    method PushEvidence(refs: seq<Bytes>)
      requires Expects(EvidencePart(refs), EVIDENCE)
      modifies `bytes, `at
      ensures Valid() && at == old(at) + 1
    {
      assert Fits(parts[at], kinds[at]);
      var e := EvidenceBytes(refs);
      Push(e);
    }
  }

  lemma PairBytes(x: Bytes, y: Bytes)
    requires FitsAll([PField(x), PField(y)], [KField, KField])
    ensures Short(x) && Short(y) && EncodeAll([PField(x), PField(y)], [KField, KField]) == Wire.Field(x) + Wire.Field(y)
  {
    var ps, ks := [PField(x), PField(y)], [KField, KField];
    assert Fits(ps[0], ks[0]) && Fits(ps[1], ks[1]);
    FieldItem(y);
    assert ps[1..] == [PField(y)] && ks[1..] == [KField];
  }

  // ---- the shapes ----------------------------------------------------------------------------------------

  /** The buffer is laid out for the fields of a request. */
  ghost predicate Encodes(out: Buffer, r: Request)
    reads out
  {
    out.Valid() && out.parts == Parts(r) && out.kinds == Kinds(ShapeOf(r))
  }

  method PushPrepare(out: Buffer, r: Request)
    requires Encodes(out, r) && out.at == 0 && r.Prepare?
    modifies out`bytes, out`at
    ensures Encodes(out, r) && out.at == |out.parts|
  {
    out.PushField(r.graph);
    out.PushField(r.branch);
    out.PushOptional(r.expectedHead);
    out.PushField(r.patch);
    out.PushField(r.activity);
    out.PushOptional(r.eventTime);
    out.PushEvidence(r.evidence);
    out.PushOptional(r.sourceSystem);
    out.PushField(r.message);
  }

  method PushAccept(out: Buffer, r: Request)
    requires Encodes(out, r) && out.at == 0 && r.Accept?
    modifies out`bytes, out`at
    ensures Encodes(out, r) && out.at == |out.parts|
  {
    out.PushField(r.graph);
    out.PushField(r.branch);
    out.PushOptional(r.expectedHead);
    out.PushField(r.candidate);
    out.PushOptional(r.reason);
    out.PushField(r.policy);
  }

  method PushReject(out: Buffer, r: Request)
    requires Encodes(out, r) && out.at == 0 && r.Reject?
    modifies out`bytes, out`at
    ensures Encodes(out, r) && out.at == |out.parts|
  {
    out.PushField(r.graph);
    out.PushField(r.branch);
    out.PushField(r.candidate);
    out.PushField(r.why);
  }

  method PushAcceptValidated(out: Buffer, r: Request)
    requires Encodes(out, r) && out.at == 0 && r.AcceptValidated?
    modifies out`bytes, out`at
    ensures Encodes(out, r) && out.at == |out.parts|
  {
    out.PushField(r.graph);
    out.PushField(r.branch);
    out.PushOptional(r.expectedHead);
    out.PushField(r.candidate);
    out.PushOptional(r.reason);
    out.PushField(Ascii("validated"));
    out.PushField(r.validation);
    out.PushField(r.environment);
  }

  method PushRejectValidated(out: Buffer, r: Request)
    requires Encodes(out, r) && out.at == 0 && r.RejectValidated?
    modifies out`bytes, out`at
    ensures Encodes(out, r) && out.at == |out.parts|
  {
    out.PushField(r.graph);
    out.PushField(r.branch);
    out.PushField(r.candidate);
    out.PushField(r.why);
    out.PushField(r.validation);
  }

  method PushValidate(out: Buffer, r: Request)
    requires Encodes(out, r) && out.at == 0 && r.Validate?
    modifies out`bytes, out`at
    ensures Encodes(out, r) && out.at == |out.parts|
  {
    out.PushField(r.graph);
    out.PushField(r.candidate);
    out.PushPair(r.requested.baseKb);
    out.PushPair(r.requested.ontology);
    out.PushPair(r.requested.shapes);
    out.PushHint(r.requested.profile);
    out.PushHint(r.requested.sources);
  }

  method PushProtection(out: Buffer, r: Request)
    requires Encodes(out, r) && out.at == 4 && r.BranchCreate?
    modifies out`bytes, out`at
    ensures Encodes(out, r) && out.at == |out.parts|
  {
    out.PushFlag(r.guarded);
    out.PushFlag(r.requireValidation);
    out.PushFlag(r.requireDistinctReviewer);
  }

  method PushBranchCreate(out: Buffer, r: Request)
    requires Encodes(out, r) && out.at == 0 && r.BranchCreate?
    modifies out`bytes, out`at
    ensures Encodes(out, r) && out.at == |out.parts|
  {
    out.PushField(r.graph);
    out.PushField(r.name);
    out.PushField(r.source);
    out.PushOptional(r.fromCommit);
    PushProtection(out, r);
  }

  method PushBranchOther(out: Buffer, r: Request)
    requires Encodes(out, r) && out.at == 0 && (r.BranchDelete? || r.BranchRestore?)
    modifies out`bytes, out`at
    ensures Encodes(out, r) && out.at == |out.parts|
  {
    out.PushField(r.graph);
    out.PushField(r.name);
    out.PushOptional(r.reason);
  }

  method PushMergeSides(out: Buffer, r: Request)
    requires Encodes(out, r) && out.at == 0 && r.MergePropose?
    modifies out`bytes, out`at
    ensures Encodes(out, r) && out.at == 4
  {
    out.PushField(r.graph);
    out.PushField(r.source);
    out.PushField(r.target);
    out.PushField(r.strategy);
  }

  method PushMergePropose(out: Buffer, r: Request)
    requires Encodes(out, r) && out.at == 0 && r.MergePropose?
    modifies out`bytes, out`at
    ensures Encodes(out, r) && out.at == |out.parts|
  {
    PushMergeSides(out, r);
    out.PushOptional(r.base);
    out.PushField(r.token);
    out.PushOptional(r.note);
    out.PushEvidence(r.evidence);
  }

  method PushMergeApply(out: Buffer, r: Request)
    requires Encodes(out, r) && out.at == 0 && r.MergeApply?
    modifies out`bytes, out`at
    ensures Encodes(out, r) && out.at == |out.parts|
  {
    out.PushField(r.graph);
    out.PushField(Decimal(r.proposal));
    out.PushField(r.token);
    out.PushOptional(r.validated);
    out.PushOptional(r.semantics);
    out.PushOptional(r.reason);
  }

  method PushShape(out: Buffer, r: Request)
    requires Encodes(out, r) && out.at == 0
    modifies out`bytes, out`at
    ensures Encodes(out, r) && out.at == |out.parts|
  {
    match r
    case Prepare(_, _, _, _, _, _, _, _, _) => PushPrepare(out, r);
    case Accept(_, _, _, _, _, _) => PushAccept(out, r);
    case Reject(_, _, _, _) => PushReject(out, r);
    case AcceptValidated(_, _, _, _, _, _, _) => PushAcceptValidated(out, r);
    case RejectValidated(_, _, _, _, _) => PushRejectValidated(out, r);
    case Validate(_, _, _) => PushValidate(out, r);
    case BranchCreate(_, _, _, _, _, _, _) => PushBranchCreate(out, r);
    case MergePropose(_, _, _, _, _, _, _, _) => PushMergePropose(out, r);
    case MergeApply(_, _, _, _, _, _) => PushMergeApply(out, r);
    case _ => PushBranchOther(out, r);
  }

  /** The four header domains. */
  method ChooseHeader(r: Request) returns (header: Bytes)
    ensures header == Header(ShapeOf(r))
  {
    if r.Prepare? || r.Accept? || r.Reject? {
      header := REQUEST_HEADER;
    } else if r.AcceptValidated? || r.RejectValidated? || r.Validate? {
      header := REQUEST_V2_HEADER;
    } else if r.BranchCreate? || r.BranchDelete? || r.BranchRestore? {
      header := BRANCH_HEADER;
    } else {
      header := MERGE_HEADER;
    }
  }

  lemma FilledIsWhole(head: Bytes, op: Bytes, ps: seq<Part>, ks: seq<Kind>)
    requires FitsAll(ps, ks)
    ensures Filled(head + op, ps, ks, |ps|) == head + (op + EncodeAll(ps, ks))
  {
    FilledIsEncoding(head + op, ps, ks, |ps|);
    assert ps[|ps|..] == [] && ks[|ps|..] == [];
    Associates(head, op, EncodeAll(ps, ks));
  }

  lemma FilledIsCanonical(r: Request)
    requires Bounded(r)
    ensures |Operation(ShapeOf(r))| < 16
    ensures
      var head := Header(ShapeOf(r)) + Wire.Field(Operation(ShapeOf(r)));
      Filled(head, Parts(r), Kinds(ShapeOf(r)), |Parts(r)|) == CanonicalBytes(r)
  {
    OperationFacts();
    FilledIsWhole(Header(ShapeOf(r)), Wire.Field(Operation(ShapeOf(r))), Parts(r), Kinds(ShapeOf(r)));
  }

  /** The encoder: choose the header, then push the operation and its fields. */
  method Encoded(r: Request) returns (out: Bytes)
    requires Bounded(r)
    ensures out == CanonicalBytes(r)
  {
    FilledIsCanonical(r);
    var header := ChooseHeader(r);
    var buffer := new Buffer(header, Parts(r), Kinds(ShapeOf(r)));
    buffer.PushName(Operation(ShapeOf(r)));
    PushShape(buffer, r);
    out := buffer.bytes;
  }
}
