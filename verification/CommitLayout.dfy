/** The commit envelopes as their documentation lays them out, by offsets: the encoders write these
    bytes and no others. */
module CommitLayout {
  import opened Wire
  import opened Offsets
  import opened CommitV2
  import opened AnyCommit

  /** The principal type byte: human 0, agent 1, service 2. */
  predicate TypeByte(k: Principal, b: Byte) {
    (k.Human? ==> b == 0) && (k.Agent? ==> b == 1) && (k.Service? ==> b == 2)
  }

  /** The evidence references in bytewise order, each once. */
  predicate Evidence(given: seq<Bytes>, refs: seq<Bytes>) {
    Ascending(refs) && Members(refs) == Members(given)
  }

  /** The v2 envelope. */
  function Envelope(c: Commit, kind: Byte, refs: seq<Bytes>): seq<Item> {
    [Literal("sculpin-cognitive-commit-v2\0"), Text(c.graph), Number(|c.parents|)]
    + (Offsets.Texts(c.parents)
    + ([Text(c.patch)]
    + ([Text(c.actor.id), Tag(kind), Maybe(c.actor.onBehalfOf)]
    + ([Text(c.activity), Maybe(c.eventTime), Text(c.recordedAt)]
    + ([Number(|refs|)]
    + (Offsets.Texts(refs)
    + ([Maybe(c.source), Text(c.message)]
    + [])))))))
  }

  lemma FirstText(xs: seq<Bytes>, rest: seq<Item>)
    requires xs != []
    ensures Offsets.Texts(xs) + rest == [Text(xs[0])] + (Offsets.Texts(xs[1..]) + rest)
  {
  }

  lemma {:induction false} JoinedTexts(xs: seq<Bytes>, rest: seq<Item>)
    requires (forall i :: 0 <= i < |xs| ==> Short(xs[i])) && AllFit(rest)
    ensures AllFit(Offsets.Texts(xs) + rest) && Joined(Offsets.Texts(xs) + rest) == Fields(xs) + Joined(rest)
  {
    if xs == [] {
      assert Offsets.Texts(xs) + rest == rest;
    } else {
      JoinedTexts(xs[1..], rest);
      JoinedOne(Text(xs[0]), Offsets.Texts(xs[1..]) + rest);
      FirstText(xs, rest);
      Associates(Field(xs[0]), Fields(xs[1..]), Joined(rest));
    }
  }

  lemma EndIsJoined(c: Commit, refs: seq<Bytes>)
    requires Fits(c) && refs == SortUnique(c.evidence)
    ensures
      var items := [Number(|refs|)] + (Offsets.Texts(refs) + ([Maybe(c.source), Text(c.message)] + []));
      AllFit(items) && Joined(items) == EndBytes(refs, c.source, c.message)
  {
    JoinedTwo(Maybe(c.source), Text(c.message), []);
    JoinedTexts(refs, [Maybe(c.source), Text(c.message)] + []);
    JoinedOne(Number(|refs|), Offsets.Texts(refs) + ([Maybe(c.source), Text(c.message)] + []));
    assert Field(c.message) + [] == Field(c.message);
  }

  lemma ActorIsJoined(c: Commit, kind: Byte, rest: seq<Item>)
    requires Fits(c) && kind == WireByte(c.actor.kind) && AllFit(rest)
    ensures
      var items := [Text(c.actor.id), Tag(kind), Maybe(c.actor.onBehalfOf)]
        + ([Text(c.activity), Maybe(c.eventTime), Text(c.recordedAt)] + rest);
      && AllFit(items)
      && Joined(items) == ActorBytes(c.actor, TimeBytes(c.activity, c.eventTime, c.recordedAt, Joined(rest)))
  {
    JoinedThree(Text(c.activity), Maybe(c.eventTime), Text(c.recordedAt), rest);
    JoinedThree(Text(c.actor.id), Tag(kind), Maybe(c.actor.onBehalfOf),
                [Text(c.activity), Maybe(c.eventTime), Text(c.recordedAt)] + rest);
  }

  lemma HeaderIsSpelled(rest: seq<Item>, graph: Bytes, n: nat)
    requires AllFit(rest) && Short(graph) && n < U32_LIMIT
    ensures
      var items := [Literal("sculpin-cognitive-commit-v2\0"), Text(graph), Number(n)] + rest;
      AllFit(items) && Joined(items) == CommitV2.HEADER + (Field(graph) + (U32(n) + Joined(rest)))
  {
    JoinedThree(Literal("sculpin-cognitive-commit-v2\0"), Text(graph), Number(n), rest);
  }

  lemma HeadIsJoined(c: Commit, rest: seq<Item>)
    requires Fits(c) && AllFit(rest)
    ensures
      var items := [Literal("sculpin-cognitive-commit-v2\0"), Text(c.graph), Number(|c.parents|)]
        + (Offsets.Texts(c.parents) + ([Text(c.patch)] + rest));
      AllFit(items) && Joined(items) == CommitV2.HEADER + HeadBytes(c.graph, c.parents, c.patch, Joined(rest))
  {
    JoinedOne(Text(c.patch), rest);
    JoinedTexts(c.parents, [Text(c.patch)] + rest);
    HeaderIsSpelled(Offsets.Texts(c.parents) + ([Text(c.patch)] + rest), c.graph, |c.parents|);
  }

  lemma TypeByteIsWritten(k: Principal, b: Byte)
    requires TypeByte(k, b)
    ensures b == WireByte(k)
  {
  }

  /** For every valid commit, its encoding is the documented envelope and nothing else is. */
  lemma EncodesToTheEnvelope(c: Commit, kind: Byte, refs: seq<Bytes>, b: Bytes)
    requires Valid(c) && TypeByte(c.actor.kind, kind) && Evidence(c.evidence, refs)
    ensures CommitV2.Fits(c)
    ensures LaidOut(b, 0, Envelope(c, kind, refs)) <==> b == Encode(c)
  {
    ValidFits(c);
    TypeByteIsWritten(c.actor.kind, kind);
    SortUniqueSorts(c.evidence);
    AscendingIsCanonical(refs, SortUnique(c.evidence));
    var end := [Number(|refs|)] + (Offsets.Texts(refs) + ([Maybe(c.source), Text(c.message)] + []));
    EndIsJoined(c, refs);
    ActorIsJoined(c, kind, end);
    HeadIsJoined(c, [Text(c.actor.id), Tag(kind), Maybe(c.actor.onBehalfOf)]
                    + ([Text(c.activity), Maybe(c.eventTime), Text(c.recordedAt)] + end));
    LaidOutExactly(b, Envelope(c, kind, refs));
  }

  /** The strict decoder reads the documented envelopes: the commit it returns is laid out in the
      input, whose type byte is that of the principal returned. */
  lemma DecodedIsLaidOut(bytes: Bytes, c: Commit, kind: Byte)
    requires Encodes(bytes, c) && Ascending(c.evidence) && TypeByte(c.actor.kind, kind)
    ensures LaidOut(bytes, 0, Envelope(c, kind, c.evidence))
  {
    EncodesToTheEnvelope(c, kind, c.evidence, bytes);
  }

  // ---- the bootstrap envelope -------------------------------------------------------------------

  function FirstEnvelope(c: CommitV1): seq<Item> {
    [Literal("sculpin-commit-v1\0"), Number(|c.parents|)]
    + (Offsets.Texts(c.parents)
    + ([Text(c.patch), Text(c.author), Text(c.message)]
    + ([Text(c.eventTime), Text(c.recordedTime)]
    + [])))
  }

  lemma ValuesAreJoined(c: CommitV1)
    requires Valid1(c)
    ensures
      var items := [Text(c.patch), Text(c.author), Text(c.message)] + ([Text(c.eventTime), Text(c.recordedTime)] + []);
      AllFit(items) && Joined(items) == Fields(Values(c))
  {
    var v := Values(c);
    assert c.patch == v[0] && c.author == v[1] && c.message == v[2] && c.eventTime == v[3] && c.recordedTime == v[4];
    JoinedTexts(v, []);
    assert Offsets.Texts(v) + [] ==
      [Text(c.patch), Text(c.author), Text(c.message)] + ([Text(c.eventTime), Text(c.recordedTime)] + []);
    assert Fields(v) + [] == Fields(v);
  }

  lemma EncodesToTheFirstEnvelope(c: CommitV1, b: Bytes)
    requires Valid1(c)
    ensures LaidOut(b, 0, FirstEnvelope(c)) <==> b == Encode1(c)
  {
    var values := [Text(c.patch), Text(c.author), Text(c.message)] + ([Text(c.eventTime), Text(c.recordedTime)] + []);
    ValuesAreJoined(c);
    ParentsAreTexts(c.parents);
    JoinedTexts(c.parents, values);
    JoinedTwo(Literal("sculpin-commit-v1\0"), Number(|c.parents|), Offsets.Texts(c.parents) + values);
    LaidOutExactly(b, FirstEnvelope(c));
  }
}
