/** The bootstrap v1 envelope, and the dual read: the header decides the version, and each version's
    strict decoder accepts exactly its own encodings. */
module AnyCommit {
  import opened Basics
  import opened Wire
  import opened Text
  import opened CommitV2

  const V1_HEADER := Ascii("sculpin-commit-v1\0")

  datatype CommitV1 = CommitV1(parents: seq<Bytes>, patch: Bytes, author: Bytes, message: Bytes,
                               eventTime: Bytes, recordedTime: Bytes)

  predicate Valid1(c: CommitV1) {
    ParentsOk(c.parents) && ContentId(c.patch) && Texts(Values(c))
  }

  function Values(c: CommitV1): seq<Bytes> { [c.patch, c.author, c.message, c.eventTime, c.recordedTime] }

  function Encode1(c: CommitV1): Bytes
    requires Valid1(c)
  {
    V1_HEADER + (U32(|c.parents|) + (Fields(c.parents) + Fields(Values(c))))
  }

  predicate Encodes1(bytes: Bytes, c: CommitV1) { Valid1(c) && bytes == Encode1(c) }

  lemma ParentsAreTexts(ps: seq<Bytes>)
    requires forall i :: 0 <= i < |ps| ==> ContentId(ps[i])
    ensures Texts(ps)
  {
    forall i | 0 <= i < |ps| ensures Short(ps[i]) && Utf8(ps[i]) { ContentIdIsText(ps[i]); }
  }

  predicate ParentsOk(ps: seq<Bytes>) {
    |ps| <= 2 && (|ps| == 2 ==> ps[0] != ps[1]) && forall i :: 0 <= i < |ps| ==> ContentId(ps[i])
  }

  method ReadParents(s: Bytes, ghost hope: bool, ghost want: seq<Bytes>, ghost tail: Bytes)
    returns (r: Result<(seq<Bytes>, Bytes)>)
    requires hope ==> ParentsOk(want) && s == U32(|want|) + (Fields(want) + tail)
    ensures r.Ok? ==> ParentsOk(r.value.0) && s == U32(|r.value.0|) + (Fields(r.value.0) + r.value.1)
    ensures hope ==> r == Ok((want, tail))
  {
    if hope {
      ReadsU32(|want|, Fields(want) + tail);
      ParentsAreTexts(want);
    }
    var count := ReadU32(s);
    if count.Err? { return Err(count.reason); }
    if count.value.0 > 2 { return Err("protocol v1 permits at most two parents"); }
    r := ReadRefs(count.value.1, count.value.0, x => ContentId(x), false, hope, want, tail);
    if r.Ok? && |r.value.0| == 2 && r.value.0[0] == r.value.0[1] { return Err("merge parents must be distinct"); }
  }

  /** Five fields and nothing after them. */
  method ReadValues(s: Bytes, ghost hope: bool, ghost want: seq<Bytes>) returns (r: Result<seq<Bytes>>)
    requires hope ==> |want| == 5 && Texts(want) && s == Fields(want)
    ensures r.Ok? ==> |r.value| == 5 && Texts(r.value) && s == Fields(r.value)
    ensures hope ==> r == Ok(want)
  {
    assert hope ==> s == Fields(want) + [];
    var values := ReadRefs(s, 5, x => Utf8(x), false, hope, want, []);
    if values.Err? { return Err(values.reason); }
    if values.value.1 != [] { return Err("trailing bytes"); }
    return Ok(values.value.0);
  }

  /** The v1 decoder. */
  method ReadV1(bytes: Bytes, ghost hope: bool, ghost c: CommitV1) returns (r: Result<CommitV1>)
    requires Starts(bytes, V1_HEADER) && (hope ==> Encodes1(bytes, c))
    ensures r.Ok? ==> Encodes1(bytes, r.value)
    ensures hope ==> r == Ok(c)
  {
    var rest := bytes[|V1_HEADER|..];
    assert bytes == V1_HEADER + rest;
    var parents := ReadParents(rest, hope, c.parents, if hope then Fields(Values(c)) else []);
    if parents.Err? { return Err(parents.reason); }
    var values := ReadValues(parents.value.1, hope, Values(c));
    if values.Err? { return Err(values.reason); }
    var ps, vs := parents.value.0, values.value;
    if !ContentId(vs[0]) { return Err("invalid patch id"); }
    r := Ok(CommitV1(ps, vs[0], vs[1], vs[2], vs[3], vs[4]));
    assert Values(r.value) == vs;
  }

  datatype Any = V1(first: CommitV1) | V2(second: Commit)

  predicate EncodesAny(bytes: Bytes, a: Any) {
    match a
    case V1(c) => Encodes1(bytes, c)
    case V2(c) => Encodes(bytes, c)
  }

  /** The headers exclude one another. */
  lemma HeadersExclude(bytes: Bytes)
    ensures !(Starts(bytes, HEADER) && Starts(bytes, V1_HEADER))
  {
    assert HEADER[10] == 'g' as int && V1_HEADER[10] == 'm' as int;
    if Starts(bytes, HEADER) { assert bytes[10] == bytes[..|HEADER|][10]; }
    if Starts(bytes, V1_HEADER) { assert bytes[10] == bytes[..|V1_HEADER|][10]; }
  }

  lemma EncodingHasItsHeader(bytes: Bytes, a: Any)
    requires EncodesAny(bytes, a)
    ensures if a.V1? then Starts(bytes, V1_HEADER) else Starts(bytes, HEADER)
  {
    if a.V1? {
      assert bytes[..|V1_HEADER|] == V1_HEADER;
    } else {
      assert bytes[..|HEADER|] == HEADER;
    }
  }

  /** The dual read accepts exactly the encodings of valid commits of either version, and reads each
      as its own; every other input fails. */
  method FromAnyBytes(bytes: Bytes) returns (r: Result<Any>)
    ensures r.Ok? <==> exists a :: EncodesAny(bytes, a)
    ensures r.Ok? ==> EncodesAny(bytes, r.value) && (r.value.V2? ==> Ascending(r.value.second.evidence))
  {
    HeadersExclude(bytes);
    forall a | EncodesAny(bytes, a) ensures if a.V1? then Starts(bytes, V1_HEADER) else Starts(bytes, HEADER) {
      EncodingHasItsHeader(bytes, a);
    }
    if Starts(bytes, V1_HEADER) {
      ghost var hope := exists c :: Encodes1(bytes, c);
      ghost var c := CommitV1([], [], [], [], [], []);
      if hope { c :| Encodes1(bytes, c); }
      var one := ReadV1(bytes, hope, c);
      if one.Err? {
        assert forall a :: !EncodesAny(bytes, a);
        return Err(one.reason);
      }
      assert EncodesAny(bytes, V1(one.value));
      return Ok(V1(one.value));
    }
    if Starts(bytes, HEADER) {
      var two := FromCanonicalBytes(bytes);
      if two.Err? {
        assert forall a :: !EncodesAny(bytes, a);
        return Err(two.reason);
      }
      assert EncodesAny(bytes, V2(two.value));
      return Ok(V2(two.value));
    }
    return Err("unknown commit version");
  }

  /** A byte string is the encoding of commits of one version only, and of one commit up to order and
      duplication of evidence. */
  lemma SameBytesSameCommit(bytes: Bytes, a: Any, b: Any)
    requires EncodesAny(bytes, a) && EncodesAny(bytes, b)
    ensures a.V1? ==> b == a
    ensures a.V2? ==> b.V2? && Canonical(b.second) == Canonical(a.second)
  {
    HeadersExclude(bytes);
    EncodingHasItsHeader(bytes, a);
    EncodingHasItsHeader(bytes, b);
    if a.V1? {
      SameBytesSameV1(a.first, b.first);
    } else {
      SameBytesExactlyWhenSameCommit(a.second, b.second);
      SortUniqueIsTheSet(a.second.evidence, b.second.evidence);
    }
  }

  lemma SameBytesSameV1(a: CommitV1, b: CommitV1)
    requires Valid1(a) && Valid1(b) && Encode1(a) == Encode1(b)
    ensures a == b
  {
    ParentsAreTexts(a.parents);
    ParentsAreTexts(b.parents);
    assert Encode1(a)[|V1_HEADER|..] == U32(|a.parents|) + (Fields(a.parents) + Fields(Values(a)));
    assert Encode1(b)[|V1_HEADER|..] == U32(|b.parents|) + (Fields(b.parents) + Fields(Values(b)));
    CountCancels(|a.parents|, |b.parents|,
                 Fields(a.parents) + Fields(Values(a)), Fields(b.parents) + Fields(Values(b)));
    FieldsCancel(a.parents, b.parents, Fields(Values(a)), Fields(Values(b)));
    assert Fields(Values(a)) + [] == Fields(Values(b)) + [];
    FieldsCancel(Values(a), Values(b), [], []);
    assert a.patch == Values(a)[0] && a.author == Values(a)[1] && a.message == Values(a)[2];
    assert b.patch == Values(b)[0] && b.author == Values(b)[1] && b.message == Values(b)[2];
    assert a.eventTime == Values(a)[3] && b.eventTime == Values(b)[3];
    assert a.recordedTime == Values(a)[4] && b.recordedTime == Values(b)[4];
  }
}
