/** The semantic context, environment and validation record as their documentation lays them out, by
    offsets, nested sets included. */
module ValidationLayout {
  import opened Basics
  import opened Wire
  import opened Layout
  import opened Offsets
  import opened PartItems
  import opened Validation

  // ---- the documented layouts -------------------------------------------------------------------

  function Raws(xs: seq<Bytes>): seq<Item> {
    seq(|xs|, i requires 0 <= i < |xs| => Raw(xs[i]))
  }

  /** A counted set: its elements' bytes in order, each once. */
  function SetItems(elements: seq<Bytes>): seq<Item> { [Number(|elements|)] + Raws(elements) }

  function Optional(texts: Option<seq<Bytes>>): seq<Item> {
    match texts
    case None => [Tag(0)]
    case Some(xs) => [Tag(1)] + Texts(xs)
  }

  /** The element bytes of a set, in bytewise order: one for each member, and no others. */
  ghost predicate Elements<T(!new)>(xs: seq<T>, elements: seq<Bytes>, encodes: (Bytes, T) -> bool) {
    && Ascending(elements)
    && (forall i :: 0 <= i < |xs| ==> Among(xs[i], elements, encodes))
    && (forall j :: 0 <= j < |elements| ==> Stands(elements[j], xs, encodes))
  }

  ghost predicate Among<T(!new)>(x: T, elements: seq<Bytes>, encodes: (Bytes, T) -> bool) {
    exists j :: 0 <= j < |elements| && encodes(elements[j], x)
  }

  ghost predicate Stands<T(!new)>(e: Bytes, xs: seq<T>, encodes: (Bytes, T) -> bool) {
    exists i :: 0 <= i < |xs| && encodes(e, xs[i])
  }

  /** A reference after its length. */
  predicate IsRef(e: Bytes, x: Bytes) { LaidOut(e, 0, [Text(x)]) }

  function VirtualItems(v: Virtual, refs: seq<Bytes>): seq<Item> {
    [Text(v.dataset), Text(v.version)] + (SetItems(refs) + [Text(v.query), Text(v.plan)])
  }

  ghost predicate IsVirtual(e: Bytes, v: Virtual) {
    exists refs :: Elements(v.refs, refs, IsRef) && LaidOut(e, 0, VirtualItems(v, refs))
  }

  function SemanticsItems(s: Semantics): seq<Item> {
    [Text(s.kb.0), Text(s.kb.1)]
    + (Optional(if s.ontology.None? then None else Some([s.ontology.value.0, s.ontology.value.1]))
    + ([Text(s.shapes.0), Text(s.shapes.1)]
    + (Optional(if s.reasoning.None? then None
                else Some([s.reasoning.value.0, s.reasoning.value.1, s.reasoning.value.2]))
    + [Maybe(s.sources)])))
  }

  function ValidatorItems(v: Validator): seq<Item> { [Text(v.service), Text(v.version), Text(v.configuration)] }

  function ContextItems(c: Context, virtuals: seq<Bytes>): seq<Item> {
    [Literal("sculpin-semantic-context-v1\0")]
    + ([Text(c.graph), Text(c.candidate), Text(c.digest)]
    + (SemanticsItems(c.semantics)
    + (SetItems(virtuals)
    + ValidatorItems(c.validator))))
  }

  function EnvironmentItems(e: Environment): seq<Item> {
    [Literal("sculpin-semantic-environment-v1\0")]
    + (SemanticsItems(e.semantics)
    + [Text(e.version), Text(e.configuration)])
  }

  predicate IsViolation(e: Bytes, v: Violation) {
    LaidOut(e, 0, [Text(v.severity), Text(v.code), Text(v.message)])
  }

  /** The outcome byte is 0 for a conforming verdict and 1 for violations. */
  function RecordItems(r: Record, violations: seq<Bytes>): seq<Item> {
    [Literal("sculpin-validation-record-v1\0")]
    + ([Text(r.graph), Text(r.candidate), Text(r.digest), Text(r.context)]
    + (ValidatorItems(r.validator)
    + ([Tag(if r.conforms then 0 else 1), Number(r.count)]
    + (SetItems(violations)
    + [Text(r.recordedAt), Text(r.report), Maybe(r.reference)]))))
  }

  // ---- sets -------------------------------------------------------------------------------------

  lemma {:induction false} RawsAreJoined(xs: seq<Bytes>)
    ensures AllFit(Raws(xs)) && Joined(Raws(xs)) == Concat(xs)
  {
    if xs != [] {
      RawsAreJoined(xs[1..]);
      JoinedOne(Raw(xs[0]), Raws(xs[1..]));
      assert Raws(xs) == [Raw(xs[0])] + Raws(xs[1..]);
    }
  }

  lemma SetIsJoined(given: seq<Bytes>, elements: seq<Bytes>)
    requires Ascending(elements) && Members(elements) == Members(given) && |SortUnique(given)| < U32_LIMIT
    ensures AllFit(SetItems(elements)) && Joined(SetItems(elements)) == CountedSet(given)
  {
    SortUniqueSorts(given);
    AscendingIsCanonical(elements, SortUnique(given));
    RawsAreJoined(elements);
    JoinedOne(Number(|elements|), Raws(elements));
  }

  lemma ElementsAre<T(!new)>(xs: seq<T>, elements: seq<Bytes>, encodes: (Bytes, T) -> bool, bytes: seq<Bytes>)
    requires Elements(xs, elements, encodes) && |bytes| == |xs|
    requires forall i, e :: 0 <= i < |xs| ==> (encodes(e, xs[i]) <==> e == bytes[i])
    ensures Members(elements) == Members(bytes)
  {
    forall e | e in Members(elements) ensures e in Members(bytes) {
      var j :| 0 <= j < |elements| && elements[j] == e;
      assert Stands(elements[j], xs, encodes);
      var i :| 0 <= i < |xs| && encodes(e, xs[i]);
      assert bytes[i] == e;
    }
    forall f | f in Members(bytes) ensures f in Members(elements) {
      var i :| 0 <= i < |bytes| && bytes[i] == f;
      assert Among(xs[i], elements, encodes);
      var j :| 0 <= j < |elements| && encodes(elements[j], xs[i]);
      assert elements[j] == f;
    }
  }

  lemma SortedAreElements<T(!new)>(xs: seq<T>, encodes: (Bytes, T) -> bool, bytes: seq<Bytes>)
    requires |bytes| == |xs| && forall i, e :: 0 <= i < |xs| ==> (encodes(e, xs[i]) <==> e == bytes[i])
    ensures Elements(xs, SortUnique(bytes), encodes)
  {
    var elements := SortUnique(bytes);
    SortUniqueSorts(bytes);
    forall i | 0 <= i < |xs| ensures Among(xs[i], elements, encodes) {
      assert bytes[i] in Members(bytes) && bytes[i] in Members(elements);
      var j :| 0 <= j < |elements| && elements[j] == bytes[i];
      assert encodes(elements[j], xs[i]);
    }
    forall j | 0 <= j < |elements| ensures Stands(elements[j], xs, encodes) {
      assert elements[j] in Members(elements) && elements[j] in Members(bytes);
      var i :| 0 <= i < |bytes| && bytes[i] == elements[j];
      assert encodes(elements[j], xs[i]);
    }
  }

  lemma RefIs(e: Bytes, x: Bytes)
    requires Short(x)
    ensures IsRef(e, x) <==> e == Field(x)
  {
    JoinedSingle(Text(x));
    LaidOutExactly(e, [Text(x)]);
  }

  lemma RefsAreFields(refs: seq<Bytes>, elements: seq<Bytes>)
    requires Sized(refs) && Elements(refs, elements, IsRef)
    ensures Members(elements) == Members(FieldsOf(refs))
  {
    forall i, e | 0 <= i < |refs| ensures IsRef(e, refs[i]) <==> e == FieldsOf(refs)[i] { RefIs(e, refs[i]); }
    ElementsAre(refs, elements, IsRef, FieldsOf(refs));
  }

  lemma FieldsAreRefs(refs: seq<Bytes>)
    requires Sized(refs)
    ensures Elements(refs, SortUnique(FieldsOf(refs)), IsRef)
  {
    forall i, e | 0 <= i < |refs| ensures IsRef(e, refs[i]) <==> e == FieldsOf(refs)[i] { RefIs(e, refs[i]); }
    SortedAreElements(refs, IsRef, FieldsOf(refs));
  }

  lemma TwoAreJoined(a: Bytes, b: Bytes)
    requires Short(a) && Short(b)
    ensures AllFit([Text(a), Text(b)]) && Joined([Text(a), Text(b)]) == EncodeAll(Two(a, b), FF)
  {
    OnesAreJoined(Two(a, b), FF);
    assert Ones(Two(a, b)) == [Text(a), Text(b)];
  }

  lemma ThreeAreJoined(a: Bytes, b: Bytes, c: Bytes)
    requires Short(a) && Short(b) && Short(c)
    ensures AllFit([Text(a), Text(b), Text(c)]) && Joined([Text(a), Text(b), Text(c)]) == EncodeAll(Three(a, b, c), FFF)
  {
    OnesAreJoined(Three(a, b, c), FFF);
    assert Ones(Three(a, b, c)) == [Text(a), Text(b), Text(c)];
  }

  lemma VirtualIsJoined(v: Virtual, refs: seq<Bytes>)
    requires VirtualSized(v) && Elements(v.refs, refs, IsRef)
    ensures AllFit(VirtualItems(v, refs)) && Joined(VirtualItems(v, refs)) == VirtualBytes(v)
  {
    RefsAreFields(v.refs, refs);
    SetIsJoined(FieldsOf(v.refs), refs);
    TwoAreJoined(v.dataset, v.version);
    TwoAreJoined(v.query, v.plan);
    JoinedAppends(SetItems(refs), [Text(v.query), Text(v.plan)]);
    JoinedAppends([Text(v.dataset), Text(v.version)], SetItems(refs) + [Text(v.query), Text(v.plan)]);
  }

  /** A virtual context's bytes are the documented ones and nothing else. */
  lemma VirtualEncodesAsDocumented(v: Virtual, e: Bytes)
    requires VirtualSized(v)
    ensures IsVirtual(e, v) <==> e == VirtualBytes(v)
  {
    var sorted := SortUnique(FieldsOf(v.refs));
    FieldsAreRefs(v.refs);
    VirtualIsJoined(v, sorted);
    LaidOutExactly(e, VirtualItems(v, sorted));
    if IsVirtual(e, v) {
      var refs :| Elements(v.refs, refs, IsRef) && LaidOut(e, 0, VirtualItems(v, refs));
      VirtualIsJoined(v, refs);
      LaidOutExactly(e, VirtualItems(v, refs));
    }
  }

  lemma VirtualsAreBytes(vs: seq<Virtual>, elements: seq<Bytes>)
    requires VirtualsSized(vs) && Elements(vs, elements, IsVirtual)
    ensures Members(elements) == Members(VirtualsBytes(vs))
  {
    forall i, e | 0 <= i < |vs| ensures IsVirtual(e, vs[i]) <==> e == VirtualsBytes(vs)[i] {
      VirtualEncodesAsDocumented(vs[i], e);
    }
    ElementsAre(vs, elements, IsVirtual, VirtualsBytes(vs));
  }

  lemma ViolationsAreBytes(vs: seq<Violation>, elements: seq<Bytes>)
    requires ViolationsSized(vs) && Elements(vs, elements, IsViolation)
    ensures Members(elements) == Members(ViolationsBytes(vs))
  {
    forall i, e | 0 <= i < |vs| ensures IsViolation(e, vs[i]) <==> e == ViolationsBytes(vs)[i] {
      ViolationIs(vs[i], e);
    }
    ElementsAre(vs, elements, IsViolation, ViolationsBytes(vs));
  }

  lemma ViolationIs(v: Violation, e: Bytes)
    requires ViolationSized(v)
    ensures IsViolation(e, v) <==> e == ViolationBytes(v)
  {
    ThreeAreJoined(v.severity, v.code, v.message);
    LaidOutExactly(e, [Text(v.severity), Text(v.code), Text(v.message)]);
  }

  // ---- whole layouts ----------------------------------------------------------------------------

  lemma GroupItems(texts: Option<seq<Bytes>>, g: Part)
    requires g == PGroup(if texts.None? then None else Some(FieldParts(texts.value)))
    ensures Shallow(g) && ItemsOf(g) == Optional(texts)
  {
    if texts.Some? { assert Ones(FieldParts(texts.value)) == Texts(texts.value); }
  }

  function FieldParts(xs: seq<Bytes>): seq<Part> {
    seq(|xs|, i requires 0 <= i < |xs| => PField(xs[i]))
  }

  lemma SemanticsAreItems(s: Semantics)
    ensures AllShallow(SemanticsParts(s)) && ItemsOfAll(SemanticsParts(s)) == SemanticsItems(s)
  {
    var p := SemanticsParts(s);
    var ontology := if s.ontology.None? then None else Some([s.ontology.value.0, s.ontology.value.1]);
    var reasoning := if s.reasoning.None? then None
                     else Some([s.reasoning.value.0, s.reasoning.value.1, s.reasoning.value.2]);
    if s.ontology.Some? { assert FieldParts(ontology.value) == p[2].g.value; }
    if s.reasoning.Some? { assert FieldParts(reasoning.value) == p[5].g.value; }
    GroupItems(ontology, p[2]);
    GroupItems(reasoning, p[5]);
    OnlySimple([p[6]]);
    OnePart(p[5], [p[6]]);
    SimpleParts([p[3], p[4]], [p[5]] + [p[6]]);
    OnePart(p[2], [p[3], p[4]] + ([p[5]] + [p[6]]));
    SimpleParts([p[0], p[1]], [p[2]] + ([p[3], p[4]] + ([p[5]] + [p[6]])));
    assert p == [p[0], p[1]] + ([p[2]] + ([p[3], p[4]] + ([p[5]] + [p[6]])));
    assert Ones([p[0], p[1]]) == [Text(s.kb.0), Text(s.kb.1)] && Ones([p[6]]) == [Maybe(s.sources)];
    assert Ones([p[3], p[4]]) == [Text(s.shapes.0), Text(s.shapes.1)];
  }

  lemma SemanticsAreJoined(s: Semantics)
    requires FitsAll(SemanticsParts(s), SEMANTICS_KINDS)
    ensures AllFit(SemanticsItems(s)) && Joined(SemanticsItems(s)) == EncodeAll(SemanticsParts(s), SEMANTICS_KINDS)
  {
    SemanticsAreItems(s);
    AllAreJoined(SemanticsParts(s), SEMANTICS_KINDS);
  }

  lemma ContextHeader(rest: seq<Item>)
    requires AllFit(rest)
    ensures
      var items := [Literal("sculpin-semantic-context-v1\0")] + rest;
      AllFit(items) && Joined(items) == CONTEXT_HEADER + Joined(rest)
  {
    JoinedOne(Literal("sculpin-semantic-context-v1\0"), rest);
  }

  lemma EnvironmentHeader(rest: seq<Item>)
    requires AllFit(rest)
    ensures
      var items := [Literal("sculpin-semantic-environment-v1\0")] + rest;
      AllFit(items) && Joined(items) == ENVIRONMENT_HEADER + Joined(rest)
  {
    JoinedOne(Literal("sculpin-semantic-environment-v1\0"), rest);
  }

  lemma RecordHeader(rest: seq<Item>)
    requires AllFit(rest)
    ensures
      var items := [Literal("sculpin-validation-record-v1\0")] + rest;
      AllFit(items) && Joined(items) == RECORD_HEADER + Joined(rest)
  {
    JoinedOne(Literal("sculpin-validation-record-v1\0"), rest);
  }

  lemma ValidatorIsJoined(v: Validator)
    requires ValidatorSized(v)
    ensures AllFit(ValidatorItems(v)) && Joined(ValidatorItems(v)) == EncodeAll(ValidatorParts(v), FFF)
  {
    ThreeAreJoined(v.service, v.version, v.configuration);
  }

  lemma ContextTailIsJoined(c: Context, virtuals: seq<Bytes>)
    requires ContextSized(c) && Elements(c.virtuals, virtuals, IsVirtual)
    ensures
      var items := SetItems(virtuals) + ValidatorItems(c.validator);
      AllFit(items) && Joined(items) == ContextTail(c)
  {
    VirtualsAreBytes(c.virtuals, virtuals);
    SetIsJoined(VirtualsBytes(c.virtuals), virtuals);
    ValidatorIsJoined(c.validator);
    JoinedAppends(SetItems(virtuals), ValidatorItems(c.validator));
  }

  lemma ContextIsJoined(c: Context, virtuals: seq<Bytes>)
    requires ContextSized(c) && Elements(c.virtuals, virtuals, IsVirtual)
    ensures AllFit(ContextItems(c, virtuals)) && Joined(ContextItems(c, virtuals)) == ContextBytes(c)
  {
    var tail := SetItems(virtuals) + ValidatorItems(c.validator);
    ContextTailIsJoined(c, virtuals);
    ContextFront(c, tail);
    ContextHeader([Text(c.graph), Text(c.candidate), Text(c.digest)] + (SemanticsItems(c.semantics) + tail));
  }

  /** A context's bytes are the documented ones and nothing else. */
  lemma ContextEncodesAsDocumented(c: Context, virtuals: seq<Bytes>, b: Bytes)
    requires ContextSized(c) && Elements(c.virtuals, virtuals, IsVirtual)
    ensures LaidOut(b, 0, ContextItems(c, virtuals)) <==> b == ContextBytes(c)
  {
    ContextIsJoined(c, virtuals);
    LaidOutExactly(b, ContextItems(c, virtuals));
  }

  lemma ContextFront(c: Context, tail: seq<Item>)
    requires ContextSized(c) && AllFit(tail)
    ensures
      var items := [Text(c.graph), Text(c.candidate), Text(c.digest)] + (SemanticsItems(c.semantics) + tail);
      AllFit(items) && Joined(items) == EncodeAll(ContextParts(c), CONTEXT_KINDS) + Joined(tail)
  {
    var ids, parts := Three(c.graph, c.candidate, c.digest), SemanticsParts(c.semantics);
    ContextPartsFit(c);
    JoinParts(ids, parts, FFF, SEMANTICS_KINDS);
    ThreeAreJoined(c.graph, c.candidate, c.digest);
    SemanticsAreJoined(c.semantics);
    JoinedAppends(SemanticsItems(c.semantics), tail);
    JoinedAppends([Text(c.graph), Text(c.candidate), Text(c.digest)], SemanticsItems(c.semantics) + tail);
    Associates(EncodeAll(ids, FFF), EncodeAll(parts, SEMANTICS_KINDS), Joined(tail));
  }

  lemma ContextPartsFit(c: Context)
    requires ContextSized(c)
    ensures FitsAll(Three(c.graph, c.candidate, c.digest), FFF) && FitsAll(SemanticsParts(c.semantics), SEMANTICS_KINDS)
  {
    var ps, ks := ContextParts(c), CONTEXT_KINDS;
    assert Three(c.graph, c.candidate, c.digest) == ps[..3] && SemanticsParts(c.semantics) == ps[3..];
    assert FFF == ks[..3] && SEMANTICS_KINDS == ks[3..];
    assert forall i :: 0 <= i < |ks| ==> Layout.Fits(ps[i], ks[i]);
  }

  lemma EnvironmentIsJoined(e: Environment)
    requires EnvironmentSized(e)
    ensures AllFit(EnvironmentItems(e)) && Joined(EnvironmentItems(e)) == EnvironmentBytes(e)
  {
    var end := [Text(e.version), Text(e.configuration)];
    SemanticsAreJoined(e.semantics);
    TwoAreJoined(e.version, e.configuration);
    JoinedAppends(SemanticsItems(e.semantics), end);
    EnvironmentHeader(SemanticsItems(e.semantics) + end);
  }

  /** An environment's bytes are the documented ones and nothing else. */
  lemma EnvironmentEncodesAsDocumented(e: Environment, b: Bytes)
    requires EnvironmentSized(e)
    ensures LaidOut(b, 0, EnvironmentItems(e)) <==> b == EnvironmentBytes(e)
  {
    EnvironmentIsJoined(e);
    LaidOutExactly(b, EnvironmentItems(e));
  }

  lemma RecordEndIsJoined(r: Record)
    requires FitsAll(RecordEnd(r), RECORD_END)
    ensures
      var items := [Text(r.recordedAt), Text(r.report), Maybe(r.reference)];
      AllFit(items) && Joined(items) == EncodeAll(RecordEnd(r), RECORD_END)
  {
    OnesAreJoined(RecordEnd(r), RECORD_END);
    assert Ones(RecordEnd(r)) == [Text(r.recordedAt), Text(r.report), Maybe(r.reference)];
  }

  lemma RecordIdsAreJoined(r: Record)
    requires FitsAll(IdParts(r), FFFF)
    ensures
      var items := [Text(r.graph), Text(r.candidate), Text(r.digest), Text(r.context)];
      AllFit(items) && Joined(items) == EncodeAll(IdParts(r), FFFF)
  {
    OnesAreJoined(IdParts(r), FFFF);
    assert Ones(IdParts(r)) == [Text(r.graph), Text(r.candidate), Text(r.digest), Text(r.context)];
  }

  lemma OutcomeIsJoined(r: Record, rest: seq<Item>)
    requires r.count < U32_LIMIT && AllFit(rest)
    ensures
      var items := [Tag(if r.conforms then 0 else 1), Number(r.count)] + rest;
      AllFit(items) && Joined(items) == OutcomeBytes(r) + Joined(rest)
  {
    var tag: Byte := if r.conforms then 0 else 1;
    JoinedTwo(Tag(tag), Number(r.count), rest);
    Associates([tag], U32(r.count), Joined(rest));
  }

  lemma RecordTailIsJoined(r: Record, violations: seq<Bytes>)
    requires RecordSized(r) && Elements(r.violations, violations, IsViolation)
    ensures
      var items := SetItems(violations) + [Text(r.recordedAt), Text(r.report), Maybe(r.reference)];
      AllFit(items) && Joined(items) == RecordTail(r)
  {
    ViolationsAreBytes(r.violations, violations);
    SetIsJoined(ViolationsBytes(r.violations), violations);
    RecordEndIsJoined(r);
    JoinedAppends(SetItems(violations), [Text(r.recordedAt), Text(r.report), Maybe(r.reference)]);
  }

  lemma RecordMiddleIsJoined(r: Record, tail: seq<Item>)
    requires RecordSized(r) && AllFit(tail) && Joined(tail) == RecordTail(r)
    ensures
      var items := ValidatorItems(r.validator) + ([Tag(if r.conforms then 0 else 1), Number(r.count)] + tail);
      AllFit(items) && Joined(items) == RecordMiddle(r)
  {
    OutcomeIsJoined(r, tail);
    ValidatorIsJoined(r.validator);
    JoinedAppends(ValidatorItems(r.validator), [Tag(if r.conforms then 0 else 1), Number(r.count)] + tail);
  }

  lemma RecordIsJoined(r: Record, violations: seq<Bytes>)
    requires RecordSized(r) && Elements(r.violations, violations, IsViolation)
    ensures AllFit(RecordItems(r, violations)) && Joined(RecordItems(r, violations)) == RecordBytes(r)
  {
    var tail := SetItems(violations) + [Text(r.recordedAt), Text(r.report), Maybe(r.reference)];
    var middle := ValidatorItems(r.validator) + ([Tag(if r.conforms then 0 else 1), Number(r.count)] + tail);
    var ids := [Text(r.graph), Text(r.candidate), Text(r.digest), Text(r.context)];
    RecordTailIsJoined(r, violations);
    RecordMiddleIsJoined(r, tail);
    RecordIdsAreJoined(r);
    JoinedAppends(ids, middle);
    RecordHeader(ids + middle);
  }

  /** A record's bytes are the documented ones and nothing else. */
  lemma RecordEncodesAsDocumented(r: Record, violations: seq<Bytes>, b: Bytes)
    requires RecordSized(r) && Elements(r.violations, violations, IsViolation)
    ensures LaidOut(b, 0, RecordItems(r, violations)) <==> b == RecordBytes(r)
  {
    RecordIsJoined(r, violations);
    LaidOutExactly(b, RecordItems(r, violations));
  }
}
