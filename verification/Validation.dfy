/** The semantic context, semantic environment and validation record layouts: sets of
    self-delimiting elements that may themselves contain sets. */
module Validation {
  import opened Basics
  import opened Wire
  import opened Text
  import opened Layout

  const MAX_SET := 64
  const MAX_SEVERITY := 64
  const MAX_MESSAGE := 1024
  const MAX_REFERENCE := 2048

  // ---- counted sets -----------------------------------------------------------------------------------

  function Concat(xs: seq<Bytes>): Bytes {
    if xs == [] then [] else xs[0] + Concat(xs[1..])
  }

  /** Sorted, unique, counted and joined. */
  function CountedSet(elements: seq<Bytes>): Bytes
    requires |SortUnique(elements)| < U32_LIMIT
  {
    U32(|SortUnique(elements)|) + Concat(SortUnique(elements))
  }

  /** The bytes of some parts of the given kinds. */
  ghost predicate IsEncoding(x: Bytes, ks: seq<Kind>) {
    exists ps :: FitsAll(ps, ks) && EncodeAll(ps, ks) == x
  }

  ghost predicate AllEncodings(xs: seq<Bytes>, ks: seq<Kind>) {
    forall x :: x in xs ==> IsEncoding(x, ks)
  }

  lemma {:induction false} ElementsCancel(a: seq<Bytes>, b: seq<Bytes>, ks: seq<Kind>, r: Bytes, s: Bytes)
    requires |a| == |b| && AllEncodings(a, ks) && AllEncodings(b, ks) && Concat(a) + r == Concat(b) + s
    ensures a == b && r == s
  {
    if a == [] {
      assert Concat(a) + r == r && Concat(b) + s == s;
    } else {
      var x, y := Concat(a[1..]), Concat(b[1..]);
      assert Concat(a) + r == a[0] + (x + r) && Concat(b) + s == b[0] + (y + s);
      assert IsEncoding(a[0], ks) && IsEncoding(b[0], ks);
      var ps :| FitsAll(ps, ks) && EncodeAll(ps, ks) == a[0];
      var qs :| FitsAll(qs, ks) && EncodeAll(qs, ks) == b[0];
      PartsCancel(ps, qs, ks, x + r, y + s);
      ElementsCancel(a[1..], b[1..], ks, r, s);
      assert a == [a[0]] + a[1..] && b == [b[0]] + b[1..];
    }
  }

  /** A counted set of self-delimiting elements is self-delimiting, and stands for a set. */
  lemma SetCancels(a: seq<Bytes>, b: seq<Bytes>, ks: seq<Kind>, r: Bytes, s: Bytes)
    requires |SortUnique(a)| < U32_LIMIT && |SortUnique(b)| < U32_LIMIT && AllEncodings(a, ks) && AllEncodings(b, ks)
    requires CountedSet(a) + r == CountedSet(b) + s
    ensures Members(a) == Members(b) && r == s
  {
    SortUniqueSorts(a);
    SortUniqueSorts(b);
    var x, y := SortUnique(a), SortUnique(b);
    forall e | e in x ensures IsEncoding(e, ks) { assert e in Members(a); }
    forall e | e in y ensures IsEncoding(e, ks) { assert e in Members(b); }
    assert CountedSet(a) + r == U32(|x|) + (Concat(x) + r) && CountedSet(b) + s == U32(|y|) + (Concat(y) + s);
    U32RoundTrip(|x|, Concat(x) + r);
    U32RoundTrip(|y|, Concat(y) + s);
    ElementsCancel(x, y, ks, r, s);
  }

  lemma SetIsASet(a: seq<Bytes>, b: seq<Bytes>)
    requires Members(a) == Members(b) && |SortUnique(a)| < U32_LIMIT
    ensures |SortUnique(b)| < U32_LIMIT && CountedSet(a) == CountedSet(b)
  {
    SortUniqueIsTheSet(a, b);
  }

  /** A counted set is itself the encoding of a list of its elements' parts. */
  lemma {:induction false} ConcatIsItems(xs: seq<Bytes>, ks: seq<Kind>) returns (items: seq<seq<Part>>)
    requires AllEncodings(xs, ks)
    ensures |items| == |xs| && forall i :: 0 <= i < |items| ==> FitsAll(items[i], ks)
    ensures EncodeItems(items, ks) == Concat(xs)
  {
    if xs == [] {
      items := [];
    } else {
      assert IsEncoding(xs[0], ks);
      var ps :| FitsAll(ps, ks) && EncodeAll(ps, ks) == xs[0];
      var rest := ConcatIsItems(xs[1..], ks);
      items := [ps] + rest;
      assert items[1..] == rest;
    }
  }

  // ---- what is encoded ----------------------------------------------------------------------------------

  datatype Virtual = Virtual(dataset: Bytes, version: Bytes, refs: seq<Bytes>, query: Bytes, plan: Bytes)
  datatype Semantics = Semantics(kb: (Bytes, Bytes), ontology: Option<(Bytes, Bytes)>, shapes: (Bytes, Bytes),
                                 reasoning: Option<(Bytes, Bytes, Bytes)>, sources: Option<Bytes>)
  datatype Validator = Validator(service: Bytes, version: Bytes, configuration: Bytes)
  datatype Context = Context(graph: Bytes, candidate: Bytes, digest: Bytes, semantics: Semantics,
                             virtuals: seq<Virtual>, validator: Validator)
  datatype Environment = Environment(semantics: Semantics, version: Bytes, configuration: Bytes)
  datatype Violation = Violation(severity: Bytes, code: Bytes, message: Bytes)
  datatype Record = Record(graph: Bytes, candidate: Bytes, digest: Bytes, context: Bytes, validator: Validator,
                           conforms: bool, count: nat, violations: seq<Violation>, recordedAt: Bytes, report: Bytes,
                           reference: Option<Bytes>)

  // ---- what a valid value is ------------------------------------------------------------------------------

  predicate Id(x: Bytes) { Token(x, MAX_IDENTIFIER) }

  predicate VirtualOk(v: Virtual) {
    && Id(v.dataset) && Id(v.version) && (forall i :: 0 <= i < |v.refs| ==> Id(v.refs[i]))
    && ContentId(v.query) && ContentId(v.plan)
    && Sized(v.refs) && |SortUnique(FieldsOf(v.refs))| <= MAX_SET
  }

  predicate SemanticsOk(s: Semantics) {
    && Id(s.kb.0) && Id(s.kb.1) && (s.ontology.Some? ==> Id(s.ontology.value.0) && Id(s.ontology.value.1))
    && Id(s.shapes.0) && Id(s.shapes.1)
    && (s.reasoning.Some? ==> Id(s.reasoning.value.0) && Id(s.reasoning.value.1) && Id(s.reasoning.value.2))
    && (s.sources.Some? ==> Id(s.sources.value))
  }

  predicate ValidatorOk(v: Validator) { Id(v.service) && Id(v.version) && Id(v.configuration) }

  predicate ContextOk(c: Context) {
    && GraphId(c.graph) && ContentId(c.candidate) && ContentId(c.digest) && SemanticsOk(c.semantics)
    && ValidatorOk(c.validator)
    && (forall i :: 0 <= i < |c.virtuals| ==> VirtualOk(c.virtuals[i]))
    && (c.virtuals != [] ==> c.semantics.sources.Some?)
    && VirtualsSized(c.virtuals) && |SortUnique(VirtualsBytes(c.virtuals))| <= MAX_SET
  }

  predicate EnvironmentOk(e: Environment) { SemanticsOk(e.semantics) && Id(e.version) && Id(e.configuration) }

  predicate ViolationOk(v: Violation) {
    Token(v.severity, MAX_SEVERITY) && Id(v.code) && |v.message| <= MAX_MESSAGE && Utf8(v.message)
    && !HasControl(v.message)
  }

  predicate RecordOk(r: Record) {
    && GraphId(r.graph) && ContentId(r.candidate) && ContentId(r.digest) && ContentId(r.context)
    && ValidatorOk(r.validator)
    && r.count < U32_LIMIT && (!r.conforms ==> r.count >= 1)
    && (forall i :: 0 <= i < |r.violations| ==> ViolationOk(r.violations[i]))
    && ViolationsSized(r.violations) && |SortUnique(ViolationsBytes(r.violations))| <= MAX_SET
    && |SortUnique(ViolationsBytes(r.violations))| <= r.count
    && CanonicalTime(r.recordedAt) && ContentId(r.report)
    && (r.reference.Some? ==> Token(r.reference.value, MAX_REFERENCE))
  }

  // ---- layouts --------------------------------------------------------------------------------------------

  /** Lengths fit their 32-bit prefixes; valid values are far shorter. */
  predicate Sized(xs: seq<Bytes>) { forall i :: 0 <= i < |xs| ==> Short(xs[i]) }

  predicate VirtualSized(v: Virtual) {
    && Short(v.dataset) && Short(v.version) && Short(v.query) && Short(v.plan)
    && Sized(v.refs) && |SortUnique(FieldsOf(v.refs))| < U32_LIMIT
  }

  predicate VirtualsSized(vs: seq<Virtual>) { forall i :: 0 <= i < |vs| ==> VirtualSized(vs[i]) }

  predicate ValidatorSized(v: Validator) { Short(v.service) && Short(v.version) && Short(v.configuration) }

  predicate ContextSized(c: Context) {
    && FitsAll(ContextParts(c), CONTEXT_KINDS) && ValidatorSized(c.validator)
    && VirtualsSized(c.virtuals) && |SortUnique(VirtualsBytes(c.virtuals))| < U32_LIMIT
  }

  predicate EnvironmentSized(e: Environment) {
    FitsAll(SemanticsParts(e.semantics), SEMANTICS_KINDS) && Short(e.version) && Short(e.configuration)
  }

  predicate ViolationSized(v: Violation) { Short(v.severity) && Short(v.code) && Short(v.message) }

  predicate ViolationsSized(vs: seq<Violation>) { forall i :: 0 <= i < |vs| ==> ViolationSized(vs[i]) }

  predicate RecordSized(r: Record) {
    && FitsAll(IdParts(r), FFFF) && ValidatorSized(r.validator) && r.count < U32_LIMIT
    && ViolationsSized(r.violations) && |SortUnique(ViolationsBytes(r.violations))| < U32_LIMIT
    && FitsAll(RecordEnd(r), RECORD_END)
  }

  function FieldsOf(xs: seq<Bytes>): (r: seq<Bytes>)
    requires Sized(xs)
    ensures |r| == |xs| && forall i :: 0 <= i < |xs| ==> r[i] == Field(xs[i])
  {
    seq(|xs|, i requires 0 <= i < |xs| => Field(xs[i]))
  }

  const FF := [KField, KField]
  const FFF := [KField, KField, KField]
  const VIRTUAL_KINDS := [KField, KField, KList([KField]), KField, KField]
  const SEMANTICS_KINDS := [KField, KField, KGroup(FF), KField, KField, KGroup(FFF), KOpt]

  function Two(a: Bytes, b: Bytes): seq<Part> { [PField(a), PField(b)] }

  function Three(a: Bytes, b: Bytes, c: Bytes): seq<Part> { [PField(a), PField(b), PField(c)] }

  function SemanticsParts(s: Semantics): seq<Part> {
    [PField(s.kb.0), PField(s.kb.1),
     PGroup(if s.ontology.None? then None else Some(Two(s.ontology.value.0, s.ontology.value.1))),
     PField(s.shapes.0), PField(s.shapes.1),
     PGroup(if s.reasoning.None? then None
            else Some(Three(s.reasoning.value.0, s.reasoning.value.1, s.reasoning.value.2))),
     POpt(s.sources)]
  }

  function VirtualBytes(v: Virtual): Bytes
    requires VirtualSized(v)
  {
    EncodeAll(Two(v.dataset, v.version), FF) + (CountedSet(FieldsOf(v.refs)) + EncodeAll(Two(v.query, v.plan), FF))
  }

  function VirtualsBytes(vs: seq<Virtual>): (r: seq<Bytes>)
    requires VirtualsSized(vs)
    ensures |r| == |vs| && forall i :: 0 <= i < |vs| ==> r[i] == VirtualBytes(vs[i])
  {
    seq(|vs|, i requires 0 <= i < |vs| => VirtualBytes(vs[i]))
  }

  const CONTEXT_HEADER := Ascii("sculpin-semantic-context-v1\0")
  const ENVIRONMENT_HEADER := Ascii("sculpin-semantic-environment-v1\0")
  const RECORD_HEADER := Ascii("sculpin-validation-record-v1\0")

  const CONTEXT_KINDS := FFF + SEMANTICS_KINDS

  function ContextParts(c: Context): seq<Part> {
    Three(c.graph, c.candidate, c.digest) + SemanticsParts(c.semantics)
  }

  function ValidatorParts(v: Validator): seq<Part> { Three(v.service, v.version, v.configuration) }

  function ContextBytes(c: Context): Bytes
    requires ContextSized(c)
  {
    CONTEXT_HEADER + (EncodeAll(ContextParts(c), CONTEXT_KINDS) + ContextTail(c))
  }

  function ContextTail(c: Context): Bytes
    requires ContextSized(c)
  {
    CountedSet(VirtualsBytes(c.virtuals)) + EncodeAll(ValidatorParts(c.validator), FFF)
  }

  /** `encode_context`: refused unless every token, id and bound holds. */
  function EncodeContext(c: Context): Result<Bytes> {
    if ContextOk(c) then
      ContextIsSized(c);
      Ok(ContextBytes(c))
    else Err("invalid context")
  }

  function EnvironmentBytes(e: Environment): Bytes
    requires EnvironmentSized(e)
  {
    ENVIRONMENT_HEADER + (EncodeAll(SemanticsParts(e.semantics), SEMANTICS_KINDS)
      + EncodeAll(Two(e.version, e.configuration), FF))
  }

  function EncodeEnvironment(e: Environment): Result<Bytes> {
    if EnvironmentOk(e) then
      SemanticsFit(e.semantics);
      Ok(EnvironmentBytes(e))
    else Err("invalid environment")
  }

  /** The candidate-independent projection of a context. */
  function EnvironmentOf(c: Context): Environment {
    Environment(c.semantics, c.validator.version, c.validator.configuration)
  }

  lemma ContextIsSized(c: Context)
    requires ContextOk(c)
    ensures ContextSized(c)
  {
    SemanticsFit(c.semantics);
    assert FitsAll(Three(c.graph, c.candidate, c.digest), FFF);
    JoinParts(Three(c.graph, c.candidate, c.digest), SemanticsParts(c.semantics), FFF, SEMANTICS_KINDS);
  }

  lemma SemanticsFit(s: Semantics)
    requires SemanticsOk(s)
    ensures FitsAll(SemanticsParts(s), SEMANTICS_KINDS)
  {
    if s.ontology.Some? { assert FitsAll(Two(s.ontology.value.0, s.ontology.value.1), FF); }
    if s.reasoning.Some? { assert FitsAll(Three(s.reasoning.value.0, s.reasoning.value.1, s.reasoning.value.2), FFF); }
  }

  // ---- identity ---------------------------------------------------------------------------------------------

  datatype NormalVirtual = NormalVirtual(dataset: Bytes, version: Bytes, refs: set<Bytes>, query: Bytes, plan: Bytes)

  /** Object references are a set. */
  function NormalOf(v: Virtual): NormalVirtual {
    NormalVirtual(v.dataset, v.version, Members(v.refs), v.query, v.plan)
  }

  lemma FieldsAreEncodings(xs: seq<Bytes>)
    requires Sized(xs)
    ensures AllEncodings(FieldsOf(xs), [KField])
  {
    forall x | x in FieldsOf(xs) ensures IsEncoding(x, [KField]) {
      var i :| 0 <= i < |xs| && FieldsOf(xs)[i] == x;
      FieldItem(xs[i]);
    }
  }

  lemma FieldsOfMembers(a: seq<Bytes>, b: seq<Bytes>)
    requires Sized(a) && Sized(b)
    ensures Members(FieldsOf(a)) == Members(FieldsOf(b)) <==> Members(a) == Members(b)
  {
    if Members(FieldsOf(a)) == Members(FieldsOf(b)) {
      forall x ensures x in Members(a) <==> x in Members(b) {
        if x in a { FieldsOfMember(a, b, x); }
        if x in b { FieldsOfMember(b, a, x); }
      }
    } else if Members(a) == Members(b) {
      forall x ensures x in Members(FieldsOf(a)) <==> x in Members(FieldsOf(b)) {
        if x in FieldsOf(a) { FieldOfMember(a, b, x); }
        if x in FieldsOf(b) { FieldOfMember(b, a, x); }
      }
    }
  }

  lemma FieldsOfMember(a: seq<Bytes>, b: seq<Bytes>, x: Bytes)
    requires Sized(a) && Sized(b) && Members(FieldsOf(a)) == Members(FieldsOf(b)) && x in a
    ensures x in b
  {
    var i :| 0 <= i < |a| && a[i] == x;
    assert FieldsOf(a)[i] in Members(FieldsOf(b));
    var j :| 0 <= j < |b| && FieldsOf(b)[j] == Field(x);
    assert Field(b[j]) + [] == Field(x) + [];
    FieldCancels(b[j], x, [], []);
  }

  lemma FieldOfMember(a: seq<Bytes>, b: seq<Bytes>, f: Bytes)
    requires Sized(a) && Sized(b) && Members(a) == Members(b) && f in FieldsOf(a)
    ensures f in FieldsOf(b)
  {
    var i :| 0 <= i < |a| && FieldsOf(a)[i] == f;
    assert a[i] in Members(b);
    var j :| 0 <= j < |b| && b[j] == a[i];
    assert FieldsOf(b)[j] == f;
  }

  lemma TwoCancels(a: Bytes, b: Bytes, c: Bytes, d: Bytes, r: Bytes, s: Bytes)
    requires Short(a) && Short(b) && Short(c) && Short(d)
      && EncodeAll(Two(a, b), FF) + r == EncodeAll(Two(c, d), FF) + s
    ensures a == c && b == d && r == s
  {
    PartsCancel(Two(a, b), Two(c, d), FF, r, s);
    assert Two(a, b)[0] == Two(c, d)[0] && Two(a, b)[1] == Two(c, d)[1];
  }

  lemma ThreeCancels(a: Validator, b: Validator, r: Bytes, s: Bytes)
    requires ValidatorSized(a) && ValidatorSized(b)
      && EncodeAll(ValidatorParts(a), FFF) + r == EncodeAll(ValidatorParts(b), FFF) + s
    ensures a == b && r == s
  {
    PartsCancel(ValidatorParts(a), ValidatorParts(b), FFF, r, s);
    var x, y := ValidatorParts(a), ValidatorParts(b);
    assert x[0] == y[0] && x[1] == y[1] && x[2] == y[2];
  }

  /** Virtual contexts share bytes exactly when they agree, references as a set. */
  lemma SameBytesExactlyWhenSameVirtual(v: Virtual, w: Virtual)
    requires VirtualSized(v) && VirtualSized(w)
    ensures VirtualBytes(v) == VirtualBytes(w) <==> NormalOf(v) == NormalOf(w)
  {
    FieldsOfMembers(v.refs, w.refs);
    if VirtualBytes(v) == VirtualBytes(w) {
      FieldsAreEncodings(v.refs);
      FieldsAreEncodings(w.refs);
      var x, y := EncodeAll(Two(v.query, v.plan), FF), EncodeAll(Two(w.query, w.plan), FF);
      TwoCancels(v.dataset, v.version, w.dataset, w.version,
                 CountedSet(FieldsOf(v.refs)) + x, CountedSet(FieldsOf(w.refs)) + y);
      SetCancels(FieldsOf(v.refs), FieldsOf(w.refs), [KField], x, y);
      assert x + [] == x && y + [] == y;
      TwoCancels(v.query, v.plan, w.query, w.plan, [], []);
    } else if NormalOf(v) == NormalOf(w) {
      SetIsASet(FieldsOf(v.refs), FieldsOf(w.refs));
    }
  }

  lemma SetIsAPart(elements: seq<Bytes>, of: seq<Kind>) returns (p: Part)
    requires |SortUnique(elements)| < U32_LIMIT && AllEncodings(elements, of)
    ensures FitsAll([p], [KList(of)]) && EncodeAll([p], [KList(of)]) == CountedSet(elements)
  {
    SortUniqueSorts(elements);
    forall e | e in SortUnique(elements) ensures IsEncoding(e, of) { assert e in Members(elements); }
    var items := ConcatIsItems(SortUnique(elements), of);
    p := PList(items);
    assert [p][1..] == [] && [KList(of)][1..] == [];
  }

  /** A virtual context, set and all, is a self-delimiting element. */
  lemma VirtualIsEncoding(v: Virtual)
    requires VirtualSized(v)
    ensures IsEncoding(VirtualBytes(v), VIRTUAL_KINDS)
  {
    FieldsAreEncodings(v.refs);
    var p := SetIsAPart(FieldsOf(v.refs), [KField]);
    var x, y := Two(v.dataset, v.version), Two(v.query, v.plan);
    JoinParts([p], y, [KList([KField])], FF);
    JoinParts(x, [p] + y, FF, [KList([KField])] + FF);
    assert FF + ([KList([KField])] + FF) == VIRTUAL_KINDS;
    assert EncodeAll(x + ([p] + y), VIRTUAL_KINDS) == VirtualBytes(v);
  }

  function NormalSet(vs: seq<Virtual>): set<NormalVirtual> {
    set i | 0 <= i < |vs| :: NormalOf(vs[i])
  }

  lemma BytesWithin(a: seq<Virtual>, b: seq<Virtual>)
    requires VirtualsSized(a) && VirtualsSized(b) && Members(VirtualsBytes(a)) <= Members(VirtualsBytes(b))
    ensures NormalSet(a) <= NormalSet(b)
  {
    forall n | n in NormalSet(a) ensures n in NormalSet(b) {
      var i :| 0 <= i < |a| && NormalOf(a[i]) == n;
      assert VirtualsBytes(a)[i] in Members(VirtualsBytes(b));
      var j :| 0 <= j < |b| && VirtualsBytes(b)[j] == VirtualsBytes(a)[i];
      SameBytesExactlyWhenSameVirtual(a[i], b[j]);
    }
  }

  lemma NormalsWithin(a: seq<Virtual>, b: seq<Virtual>)
    requires VirtualsSized(a) && VirtualsSized(b) && NormalSet(a) <= NormalSet(b)
    ensures Members(VirtualsBytes(a)) <= Members(VirtualsBytes(b))
  {
    forall x | x in Members(VirtualsBytes(a)) ensures x in Members(VirtualsBytes(b)) {
      var i :| 0 <= i < |a| && VirtualsBytes(a)[i] == x;
      assert NormalOf(a[i]) in NormalSet(b);
      var j :| 0 <= j < |b| && NormalOf(b[j]) == NormalOf(a[i]);
      SameBytesExactlyWhenSameVirtual(a[i], b[j]);
      assert VirtualsBytes(b)[j] == x;
    }
  }

  lemma VirtualsAreASet(a: seq<Virtual>, b: seq<Virtual>)
    requires VirtualsSized(a) && VirtualsSized(b)
    ensures Members(VirtualsBytes(a)) == Members(VirtualsBytes(b)) <==> NormalSet(a) == NormalSet(b)
  {
    if Members(VirtualsBytes(a)) == Members(VirtualsBytes(b)) {
      BytesWithin(a, b);
      BytesWithin(b, a);
    } else if NormalSet(a) == NormalSet(b) {
      NormalsWithin(a, b);
      NormalsWithin(b, a);
    }
  }

  lemma VirtualsAreEncodings(vs: seq<Virtual>)
    requires VirtualsSized(vs)
    ensures AllEncodings(VirtualsBytes(vs), VIRTUAL_KINDS)
  {
    forall x | x in VirtualsBytes(vs) ensures IsEncoding(x, VIRTUAL_KINDS) {
      var i :| 0 <= i < |vs| && VirtualsBytes(vs)[i] == x;
      VirtualIsEncoding(vs[i]);
    }
  }

  lemma SemanticsAreInjective(a: Semantics, b: Semantics)
    requires SemanticsParts(a) == SemanticsParts(b)
    ensures a == b
  {
    var x, y := SemanticsParts(a), SemanticsParts(b);
    assert x[0] == y[0] && x[1] == y[1] && x[2] == y[2] && x[3] == y[3] && x[4] == y[4] && x[5] == y[5] && x[6] == y[6];
    if a.ontology.Some? {
      var p, q := x[2].g.value, y[2].g.value;
      assert p[0] == q[0] && p[1] == q[1];
    }
    if a.reasoning.Some? {
      var p, q := x[5].g.value, y[5].g.value;
      assert p[0] == q[0] && p[1] == q[1] && p[2] == q[2];
    }
  }

  lemma ContextHeadCancels(a: Context, b: Context, r: Bytes, s: Bytes)
    requires ContextSized(a) && ContextSized(b)
    requires EncodeAll(ContextParts(a), CONTEXT_KINDS) + r == EncodeAll(ContextParts(b), CONTEXT_KINDS) + s
    ensures a.graph == b.graph && a.candidate == b.candidate && a.digest == b.digest && a.semantics == b.semantics
      && r == s
  {
    PartsCancel(ContextParts(a), ContextParts(b), CONTEXT_KINDS, r, s);
    var x, y := ContextParts(a), ContextParts(b);
    assert x[0] == y[0] && x[1] == y[1] && x[2] == y[2];
    assert x[3..] == SemanticsParts(a.semantics) && y[3..] == SemanticsParts(b.semantics);
    SemanticsAreInjective(a.semantics, b.semantics);
  }

  /** Equal but for the virtual contexts, which are compared as a set of sets. */
  predicate SameContext(a: Context, b: Context) {
    a.(virtuals := []) == b.(virtuals := []) && NormalSet(a.virtuals) == NormalSet(b.virtuals)
  }

  /** Contexts share bytes exactly when they agree up to order and duplication inside nested sets. */
  lemma SameBytesExactlyWhenSameContext(a: Context, b: Context)
    requires ContextSized(a) && ContextSized(b)
    ensures ContextBytes(a) == ContextBytes(b) <==> SameContext(a, b)
  {
    if ContextBytes(a) == ContextBytes(b) {
      EqualBytesAgree(a, b);
    } else if SameContext(a, b) {
      ContextTailAgrees(a, b);
    }
  }

  lemma EqualBytesAgree(a: Context, b: Context)
    requires ContextSized(a) && ContextSized(b) && ContextBytes(a) == ContextBytes(b)
    ensures SameContext(a, b)
  {
    var x, y := EncodeAll(ContextParts(a), CONTEXT_KINDS), EncodeAll(ContextParts(b), CONTEXT_KINDS);
    StripHeader(CONTEXT_HEADER, x + ContextTail(a), y + ContextTail(b));
    ContextHeadCancels(a, b, ContextTail(a), ContextTail(b));
    ContextTailCancels(a, b);
  }

  lemma StripHeader(h: Bytes, a: Bytes, b: Bytes)
    requires h + a == h + b
    ensures a == b
  {
    assert a == (h + a)[|h|..] && b == (h + b)[|h|..];
  }

  lemma ContextTailCancels(a: Context, b: Context)
    requires ContextSized(a) && ContextSized(b) && ContextTail(a) == ContextTail(b)
    ensures a.validator == b.validator && NormalSet(a.virtuals) == NormalSet(b.virtuals)
  {
    var x, y := EncodeAll(ValidatorParts(a.validator), FFF), EncodeAll(ValidatorParts(b.validator), FFF);
    VirtualsCancel(a.virtuals, b.virtuals, x, y);
    assert x + [] == x && y + [] == y;
    ThreeCancels(a.validator, b.validator, [], []);
  }

  lemma VirtualsCancel(a: seq<Virtual>, b: seq<Virtual>, r: Bytes, s: Bytes)
    requires VirtualsSized(a) && VirtualsSized(b)
    requires |SortUnique(VirtualsBytes(a))| < U32_LIMIT && |SortUnique(VirtualsBytes(b))| < U32_LIMIT
    requires CountedSet(VirtualsBytes(a)) + r == CountedSet(VirtualsBytes(b)) + s
    ensures NormalSet(a) == NormalSet(b) && r == s
  {
    VirtualsAreEncodings(a);
    VirtualsAreEncodings(b);
    SetCancels(VirtualsBytes(a), VirtualsBytes(b), VIRTUAL_KINDS, r, s);
    VirtualsAreASet(a, b);
  }

  lemma ContextTailAgrees(a: Context, b: Context)
    requires ContextSized(a) && ContextSized(b) && a.validator == b.validator
      && NormalSet(a.virtuals) == NormalSet(b.virtuals)
    ensures ContextTail(a) == ContextTail(b)
  {
    VirtualsAreASet(a.virtuals, b.virtuals);
    SetIsASet(VirtualsBytes(a.virtuals), VirtualsBytes(b.virtuals));
  }

  /** An environment's bytes determine it, and a context's environment says nothing of the candidate. */
  lemma SameBytesExactlyWhenSameEnvironment(a: Environment, b: Environment)
    requires EnvironmentSized(a) && EnvironmentSized(b)
    ensures EnvironmentBytes(a) == EnvironmentBytes(b) <==> a == b
  {
    if EnvironmentBytes(a) == EnvironmentBytes(b) {
      var x, y := EncodeAll(Two(a.version, a.configuration), FF), EncodeAll(Two(b.version, b.configuration), FF);
      var p, q := SemanticsParts(a.semantics), SemanticsParts(b.semantics);
      StripHeader(ENVIRONMENT_HEADER, EncodeAll(p, SEMANTICS_KINDS) + x, EncodeAll(q, SEMANTICS_KINDS) + y);
      PartsCancel(p, q, SEMANTICS_KINDS, x, y);
      SemanticsAreInjective(a.semantics, b.semantics);
      assert x + [] == x && y + [] == y;
      TwoCancels(a.version, a.configuration, b.version, b.configuration, [], []);
    }
  }

  // ---- validation records ---------------------------------------------------------------------------------

  function ViolationBytes(v: Violation): Bytes
    requires ViolationSized(v)
  {
    EncodeAll(Three(v.severity, v.code, v.message), FFF)
  }

  function ViolationsBytes(vs: seq<Violation>): (r: seq<Bytes>)
    requires ViolationsSized(vs)
    ensures |r| == |vs| && forall i :: 0 <= i < |vs| ==> r[i] == ViolationBytes(vs[i])
  {
    seq(|vs|, i requires 0 <= i < |vs| => ViolationBytes(vs[i]))
  }

  const FFFF := [KField, KField, KField, KField]
  const RECORD_END := [KField, KField, KOpt]

  function IdParts(r: Record): seq<Part> {
    [PField(r.graph), PField(r.candidate), PField(r.digest), PField(r.context)]
  }

  /** The outcome byte and the violation count. */
  function OutcomeBytes(r: Record): Bytes
    requires r.count < U32_LIMIT
  {
    [if r.conforms then 0 else 1] + U32(r.count)
  }

  function RecordEnd(r: Record): seq<Part> {
    [PField(r.recordedAt), PField(r.report), POpt(r.reference)]
  }

  function RecordTail(r: Record): Bytes
    requires RecordSized(r)
  {
    CountedSet(ViolationsBytes(r.violations)) + EncodeAll(RecordEnd(r), RECORD_END)
  }

  function RecordBytes(r: Record): Bytes
    requires RecordSized(r)
  {
    RECORD_HEADER + (EncodeAll(IdParts(r), FFFF) + RecordMiddle(r))
  }

  function RecordMiddle(r: Record): Bytes
    requires RecordSized(r)
  {
    EncodeAll(ValidatorParts(r.validator), FFF) + (OutcomeBytes(r) + RecordTail(r))
  }

  function EncodeRecord(r: Record): Result<Bytes> {
    if RecordOk(r) then
      RecordIsSized(r);
      Ok(RecordBytes(r))
    else Err("invalid record")
  }

  lemma ViolationsAreEncodings(vs: seq<Violation>)
    requires ViolationsSized(vs)
    ensures AllEncodings(ViolationsBytes(vs), FFF)
  {
    forall x | x in ViolationsBytes(vs) ensures IsEncoding(x, FFF) {
      var i :| 0 <= i < |vs| && ViolationsBytes(vs)[i] == x;
      assert FitsAll(Three(vs[i].severity, vs[i].code, vs[i].message), FFF);
    }
  }

  lemma ViolationIsInjective(v: Violation, w: Violation)
    requires ViolationSized(v) && ViolationSized(w) && ViolationBytes(v) == ViolationBytes(w)
    ensures v == w
  {
    var x, y := Three(v.severity, v.code, v.message), Three(w.severity, w.code, w.message);
    assert ViolationBytes(v) + [] == ViolationBytes(v) && ViolationBytes(w) + [] == ViolationBytes(w);
    PartsCancel(x, y, FFF, [], []);
    assert x[0] == y[0] && x[1] == y[1] && x[2] == y[2];
  }

  function ViolationSet(vs: seq<Violation>): set<Violation> { set v | v in vs }

  lemma ViolationsWithin(a: seq<Violation>, b: seq<Violation>)
    requires ViolationsSized(a) && ViolationsSized(b)
    ensures Members(ViolationsBytes(a)) <= Members(ViolationsBytes(b)) <==> ViolationSet(a) <= ViolationSet(b)
  {
    if Members(ViolationsBytes(a)) <= Members(ViolationsBytes(b)) {
      forall v | v in ViolationSet(a) ensures v in ViolationSet(b) {
        var i :| 0 <= i < |a| && a[i] == v;
        assert ViolationsBytes(a)[i] in Members(ViolationsBytes(b));
        var j :| 0 <= j < |b| && ViolationsBytes(b)[j] == ViolationsBytes(a)[i];
        ViolationIsInjective(a[i], b[j]);
      }
    }
    if ViolationSet(a) <= ViolationSet(b) {
      forall x | x in Members(ViolationsBytes(a)) ensures x in Members(ViolationsBytes(b)) {
        var i :| 0 <= i < |a| && ViolationsBytes(a)[i] == x;
        assert a[i] in ViolationSet(b);
        var j :| 0 <= j < |b| && b[j] == a[i];
        assert ViolationsBytes(b)[j] == x;
      }
    }
  }

  lemma IdsCancel(a: Record, b: Record, r: Bytes, s: Bytes)
    requires FitsAll(IdParts(a), FFFF) && FitsAll(IdParts(b), FFFF)
      && EncodeAll(IdParts(a), FFFF) + r == EncodeAll(IdParts(b), FFFF) + s
    ensures a.graph == b.graph && a.candidate == b.candidate && a.digest == b.digest && a.context == b.context && r == s
  {
    PartsCancel(IdParts(a), IdParts(b), FFFF, r, s);
    var x, y := IdParts(a), IdParts(b);
    assert x[0] == y[0] && x[1] == y[1] && x[2] == y[2] && x[3] == y[3];
  }

  lemma OutcomeCancels(a: Record, b: Record, r: Bytes, s: Bytes)
    requires a.count < U32_LIMIT && b.count < U32_LIMIT && OutcomeBytes(a) + r == OutcomeBytes(b) + s
    ensures a.conforms == b.conforms && a.count == b.count && r == s
  {
    var x, y := OutcomeBytes(a) + r, OutcomeBytes(b) + s;
    assert x[0] == y[0];
    assert x[1..] == U32(a.count) + r && y[1..] == U32(b.count) + s;
    U32RoundTrip(a.count, r);
    U32RoundTrip(b.count, s);
  }

  lemma RecordMiddleCancels(a: Record, b: Record)
    requires RecordSized(a) && RecordSized(b) && RecordMiddle(a) == RecordMiddle(b)
    ensures a.validator == b.validator && a.conforms == b.conforms && a.count == b.count
      && RecordTail(a) == RecordTail(b)
  {
    ThreeCancels(a.validator, b.validator, OutcomeBytes(a) + RecordTail(a), OutcomeBytes(b) + RecordTail(b));
    OutcomeCancels(a, b, RecordTail(a), RecordTail(b));
  }

  lemma RecordTailCancels(a: Record, b: Record)
    requires RecordSized(a) && RecordSized(b) && RecordTail(a) == RecordTail(b)
    ensures ViolationSet(a.violations) == ViolationSet(b.violations)
    ensures a.recordedAt == b.recordedAt && a.report == b.report && a.reference == b.reference
  {
    var x, y := EncodeAll(RecordEnd(a), RECORD_END), EncodeAll(RecordEnd(b), RECORD_END);
    ViolationsAreEncodings(a.violations);
    ViolationsAreEncodings(b.violations);
    SetCancels(ViolationsBytes(a.violations), ViolationsBytes(b.violations), FFF, x, y);
    ViolationsWithin(a.violations, b.violations);
    ViolationsWithin(b.violations, a.violations);
    EndCancels(a, b);
  }

  lemma EndCancels(a: Record, b: Record)
    requires FitsAll(RecordEnd(a), RECORD_END) && FitsAll(RecordEnd(b), RECORD_END)
    requires EncodeAll(RecordEnd(a), RECORD_END) == EncodeAll(RecordEnd(b), RECORD_END)
    ensures a.recordedAt == b.recordedAt && a.report == b.report && a.reference == b.reference
  {
    var x, y := EncodeAll(RecordEnd(a), RECORD_END), EncodeAll(RecordEnd(b), RECORD_END);
    assert x + [] == x && y + [] == y;
    PartsCancel(RecordEnd(a), RecordEnd(b), RECORD_END, [], []);
    assert RecordEnd(a)[0] == RecordEnd(b)[0] && RecordEnd(a)[1] == RecordEnd(b)[1]
      && RecordEnd(a)[2] == RecordEnd(b)[2];
  }

  predicate SameRecord(a: Record, b: Record) {
    a.(violations := []) == b.(violations := []) && ViolationSet(a.violations) == ViolationSet(b.violations)
  }

  /** Records share bytes exactly when they agree, violations as a set. */
  lemma SameBytesExactlyWhenSameRecord(a: Record, b: Record)
    requires RecordSized(a) && RecordSized(b)
    ensures RecordBytes(a) == RecordBytes(b) <==> SameRecord(a, b)
  {
    if RecordBytes(a) == RecordBytes(b) {
      StripHeader(RECORD_HEADER,
                  EncodeAll(IdParts(a), FFFF) + RecordMiddle(a), EncodeAll(IdParts(b), FFFF) + RecordMiddle(b));
      IdsCancel(a, b, RecordMiddle(a), RecordMiddle(b));
      RecordMiddleCancels(a, b);
      RecordTailCancels(a, b);
    } else if SameRecord(a, b) {
      RecordTailAgrees(a, b);
    }
  }

  lemma RecordTailAgrees(a: Record, b: Record)
    requires RecordSized(a) && RecordSized(b) && SameRecord(a, b)
    ensures RecordTail(a) == RecordTail(b)
  {
    ViolationsWithin(a.violations, b.violations);
    ViolationsWithin(b.violations, a.violations);
    SetIsASet(ViolationsBytes(a.violations), ViolationsBytes(b.violations));
  }

  /** The three layouts never share bytes. */
  lemma DomainsAreDisjoint(c: Context, e: Environment, r: Record)
    requires ContextSized(c) && EnvironmentSized(e) && RecordSized(r)
    ensures ContextBytes(c) != EnvironmentBytes(e) && ContextBytes(c) != RecordBytes(r)
      && EnvironmentBytes(e) != RecordBytes(r)
  {
    var x := EncodeAll(ContextParts(c), CONTEXT_KINDS) + ContextTail(c);
    var y := EncodeAll(SemanticsParts(e.semantics), SEMANTICS_KINDS) + EncodeAll(Two(e.version, e.configuration), FF);
    var z := EncodeAll(IdParts(r), FFFF) + RecordMiddle(r);
    HeadersDiffer(x, y, z);
  }

  lemma HeadersDiffer(x: Bytes, y: Bytes, z: Bytes)
    ensures CONTEXT_HEADER + x != ENVIRONMENT_HEADER + y
    ensures CONTEXT_HEADER + x != RECORD_HEADER + z
    ensures ENVIRONMENT_HEADER + y != RECORD_HEADER + z
  {
    assert CONTEXT_HEADER[17] == 'c' as int && ENVIRONMENT_HEADER[17] == 'e' as int;
    assert CONTEXT_HEADER[8] == 's' as int && ENVIRONMENT_HEADER[8] == 's' as int && RECORD_HEADER[8] == 'v' as int;
    assert (CONTEXT_HEADER + x)[17] == CONTEXT_HEADER[17] && (ENVIRONMENT_HEADER + y)[17] == ENVIRONMENT_HEADER[17];
    assert (CONTEXT_HEADER + x)[8] == CONTEXT_HEADER[8] && (RECORD_HEADER + z)[8] == RECORD_HEADER[8];
    assert (ENVIRONMENT_HEADER + y)[8] == ENVIRONMENT_HEADER[8];
  }

  /** A context's environment is independent of the candidate: it is shared exactly by contexts with
      the same semantics and validator versions. */
  lemma EnvironmentForgetsTheCandidate(a: Context, b: Context)
    requires EnvironmentSized(EnvironmentOf(a)) && EnvironmentSized(EnvironmentOf(b))
    ensures EnvironmentBytes(EnvironmentOf(a)) == EnvironmentBytes(EnvironmentOf(b)) <==>
      && a.semantics == b.semantics
      && a.validator.version == b.validator.version && a.validator.configuration == b.validator.configuration
  {
    SameBytesExactlyWhenSameEnvironment(EnvironmentOf(a), EnvironmentOf(b));
  }

  // ---- what the refusing encoders return ------------------------------------------------------------------

  /** Of two contexts that are not refused, the results are equal exactly when the contexts agree. */
  lemma EncodedContextsIdentify(a: Context, b: Context)
    requires EncodeContext(a).Ok? && EncodeContext(b).Ok?
    ensures EncodeContext(a) == EncodeContext(b) <==> SameContext(a, b)
  {
    ContextIsSized(a);
    ContextIsSized(b);
    SameBytesExactlyWhenSameContext(a, b);
  }

  lemma EncodedEnvironmentsIdentify(a: Environment, b: Environment)
    requires EncodeEnvironment(a).Ok? && EncodeEnvironment(b).Ok?
    ensures EncodeEnvironment(a) == EncodeEnvironment(b) <==> a == b
  {
    SemanticsFit(a.semantics);
    SemanticsFit(b.semantics);
    SameBytesExactlyWhenSameEnvironment(a, b);
  }

  lemma EncodedRecordsIdentify(a: Record, b: Record)
    requires EncodeRecord(a).Ok? && EncodeRecord(b).Ok?
    ensures EncodeRecord(a) == EncodeRecord(b) <==> SameRecord(a, b)
  {
    RecordIsSized(a);
    RecordIsSized(b);
    SameBytesExactlyWhenSameRecord(a, b);
  }

  lemma RecordIsSized(r: Record)
    requires RecordOk(r)
    ensures RecordSized(r)
  {
    assert FitsAll(IdParts(r), FFFF) && FitsAll(RecordEnd(r), RECORD_END);
  }
}
