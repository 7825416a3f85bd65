/** The `sculpin-cognitive-commit/v2` envelope: a strict encoder and decoder over bytes. */
module CommitV2 {
  import opened Basics
  import opened Wire
  import opened Text

  const HEADER := Ascii("sculpin-cognitive-commit-v2\0")
  const MAX_EVIDENCE := 64
  const MAX_MESSAGE := 4096

  datatype Principal = Human | Agent | Service
  datatype Actor = Actor(id: Bytes, kind: Principal, onBehalfOf: Option<Bytes>)
  datatype Commit = Commit(graph: Bytes, parents: seq<Bytes>, patch: Bytes, actor: Actor, activity: Bytes,
                           eventTime: Option<Bytes>, recordedAt: Bytes, evidence: seq<Bytes>,
                           source: Option<Bytes>, message: Bytes)

  predicate OptTo(o: Option<Bytes>, ok: Bytes -> bool) {
    o.Some? ==> ok(o.value)
  }

  /** What the field types themselves guarantee. */
  predicate Typed(c: Commit) {
    && GraphId(c.graph) && (forall i :: 0 <= i < |c.parents| ==> ContentId(c.parents[i])) && ContentId(c.patch)
    && Token(c.actor.id, MAX_IDENTIFIER) && OptTo(c.actor.onBehalfOf, x => Token(x, MAX_IDENTIFIER))
    && Utf8(c.activity) && OptTo(c.eventTime, x => CanonicalTime(x)) && CanonicalTime(c.recordedAt)
    && (forall i :: 0 <= i < |c.evidence| ==> Utf8(c.evidence[i]))
    && OptTo(c.source, x => Utf8(x)) && Utf8(c.message)
  }

  /** The structural rules shared by the encoder and the decoder. */
  predicate Validates(c: Commit) {
    && |c.parents| <= 2 && (|c.parents| == 2 ==> c.parents[0] != c.parents[1])
    && Token(c.activity, MAX_IDENTIFIER)
    && (forall i :: 0 <= i < |c.evidence| ==> Token(c.evidence[i], MAX_IDENTIFIER))
    && |SortUnique(c.evidence)| <= MAX_EVIDENCE
    && OptTo(c.source, x => Token(x, MAX_IDENTIFIER)) && |c.message| <= MAX_MESSAGE
  }

  predicate Valid(c: Commit) { Typed(c) && Validates(c) }

  /** Evidence as it enters canonical bytes: sorted and unique. */
  function Canonical(c: Commit): Commit {
    c.(evidence := SortUnique(c.evidence))
  }

  // ---- pieces ---------------------------------------------------------------------------------------

  function Fields(xs: seq<Bytes>): Bytes
    requires forall i :: 0 <= i < |xs| ==> Short(xs[i])
  {
    if xs == [] then [] else Field(xs[0]) + Fields(xs[1..])
  }

  function Optional(o: Option<Bytes>): Bytes
    requires o.Some? ==> Short(o.value)
  {
    if o.None? then [0] else [1] + Field(o.value)
  }

  function WireByte(k: Principal): Byte {
    match k case Human => 0 case Agent => 1 case Service => 2
  }

  lemma {:induction false} FieldsAppend(xs: seq<Bytes>, x: Bytes)
    requires (forall i :: 0 <= i < |xs| ==> Short(xs[i])) && Short(x)
    ensures Fields(xs + [x]) == Fields(xs) + Field(x)
  {
    if xs == [] {
      assert xs + [x] == [x] && [x][1..] == [];
    } else {
      FieldsAppend(xs[1..], x);
      assert (xs + [x])[1..] == xs[1..] + [x];
    }
  }

  // ---- readers --------------------------------------------------------------------------------------

  function ReadU8(s: Bytes): (r: Result<(Byte, Bytes)>)
    ensures r.Ok? ==> s == [r.value.0] + r.value.1
  {
    if s == [] then Err("truncated byte") else Ok((s[0], s[1..]))
  }

  function ReadU32(s: Bytes): (r: Result<(nat, Bytes)>)
    ensures r.Ok? ==> r.value.0 < U32_LIMIT && s == U32(r.value.0) + r.value.1
  {
    if |s| < 4 then Err("truncated count")
    else
      FromU32RoundTrip(s);
      Ok((FromU32(s), s[4..]))
  }

  function ReadField(s: Bytes): (r: Result<(Bytes, Bytes)>)
    ensures r.Ok? ==> Short(r.value.0) && Utf8(r.value.0) && s == Field(r.value.0) + r.value.1
  {
    var (len, rest) :- ReadU32(s);
    if |rest| < len then Err("truncated field")
    else if !Utf8(rest[..len]) then Err("non-UTF-8 field")
    else
      assert rest == rest[..len] + rest[len..];
      assert s == U32(len) + rest[..len] + rest[len..];
      Ok((rest[..len], rest[len..]))
  }

  function ReadOptional(s: Bytes): (r: Result<(Option<Bytes>, Bytes)>)
    ensures r.Ok? ==> (r.value.0.Some? ==> Short(r.value.0.value) && Utf8(r.value.0.value) && r.value.0.value != [])
    ensures r.Ok? ==> s == Optional(r.value.0) + r.value.1
  {
    var (tag, rest) :- ReadU8(s);
    if tag == 0 then Ok((None, rest))
    else if tag == 1 then
      var (value, rest') :- ReadField(rest);
      if value == [] then Err("present-but-empty")
      else
        assert s == [1] + Field(value) + rest';
        Ok((Some(value), rest'))
    else Err("unknown optional tag")
  }

  lemma ReadsU32(n: nat, rest: Bytes)
    requires n < U32_LIMIT
    ensures ReadU32(U32(n) + rest) == Ok((n, rest))
  {
    U32RoundTrip(n, rest);
  }

  lemma ReadsField(x: Bytes, rest: Bytes)
    requires Short(x) && Utf8(x)
    ensures ReadField(Field(x) + rest) == Ok((x, rest))
  {
    assert Field(x) + rest == U32(|x|) + (x + rest);
    U32RoundTrip(|x|, x + rest);
    assert (x + rest)[..|x|] == x && (x + rest)[|x|..] == rest;
  }

  lemma ReadsOptional(o: Option<Bytes>, rest: Bytes)
    requires o.Some? ==> Short(o.value) && Utf8(o.value) && o.value != []
    ensures ReadOptional(Optional(o) + rest) == Ok((o, rest))
  {
    if o.Some? {
      assert Optional(o) + rest == [1] + (Field(o.value) + rest);
      assert (Optional(o) + rest)[1..] == Field(o.value) + rest;
      ReadsField(o.value, rest);
    } else {
      assert (Optional(o) + rest)[1..] == rest;
    }
  }

  // ---- the encoding -----------------------------------------------------------------------------------

  /** Every length fits its 32-bit prefix; every valid commit is this short. */
  predicate Fits(c: Commit) {
    && Short(c.graph) && |c.parents| < U32_LIMIT
    && (forall i :: 0 <= i < |c.parents| ==> Short(c.parents[i])) && Short(c.patch)
    && Short(c.actor.id) && OptTo(c.actor.onBehalfOf, x => Short(x))
    && Short(c.activity) && OptTo(c.eventTime, x => Short(x)) && Short(c.recordedAt)
    && |SortUnique(c.evidence)| < U32_LIMIT && (forall x :: x in SortUnique(c.evidence) ==> Short(x))
    && OptTo(c.source, x => Short(x)) && Short(c.message)
  }

  lemma ValidFits(c: Commit)
    requires Valid(c)
    ensures Fits(c)
  {
    SortUniqueSorts(c.evidence);
    forall x | x in SortUnique(c.evidence) ensures Short(x) { assert x in Members(c.evidence); }
  }

  function HeadBytes(graph: Bytes, parents: seq<Bytes>, patch: Bytes, rest: Bytes): Bytes
    requires Short(graph) && |parents| < U32_LIMIT && Short(patch)
    requires forall i :: 0 <= i < |parents| ==> Short(parents[i])
  {
    Field(graph) + (U32(|parents|) + (Fields(parents) + (Field(patch) + rest)))
  }

  function ActorBytes(a: Actor, rest: Bytes): Bytes
    requires Short(a.id) && OptTo(a.onBehalfOf, x => Short(x))
  {
    Field(a.id) + ([WireByte(a.kind)] + (Optional(a.onBehalfOf) + rest))
  }

  function TimeBytes(activity: Bytes, eventTime: Option<Bytes>, recordedAt: Bytes, rest: Bytes): Bytes
    requires Short(activity) && OptTo(eventTime, x => Short(x)) && Short(recordedAt)
  {
    Field(activity) + (Optional(eventTime) + (Field(recordedAt) + rest))
  }

  function EndBytes(evidence: seq<Bytes>, source: Option<Bytes>, message: Bytes): Bytes
    requires |evidence| < U32_LIMIT && (forall x :: x in evidence ==> Short(x))
    requires OptTo(source, x => Short(x)) && Short(message)
  {
    U32(|evidence|) + (Fields(evidence) + (Optional(source) + Field(message)))
  }

  /** The canonical bytes of a commit. */
  function Encode(c: Commit): Bytes
    requires Fits(c)
  {
    HEADER + HeadBytes(c.graph, c.parents, c.patch,
      ActorBytes(c.actor,
        TimeBytes(c.activity, c.eventTime, c.recordedAt,
          EndBytes(SortUnique(c.evidence), c.source, c.message))))
  }

  /** The encoder: validate, then push the fields in order. */
  method CanonicalBytes(c: Commit) returns (r: Result<Bytes>)
    requires Typed(c)
    ensures r.Ok? <==> Valid(c)
    ensures r.Ok? ==> Fits(c) && r.value == Encode(c)
  {
    if !Validates(c) { return Err("invalid commit"); }
    ValidFits(c);
    var out := HEADER;
    var head := PushHead(c);
    out := out + head;
    var actor := PushActor(c.actor);
    out := out + actor;
    var times := PushTimes(c);
    out := out + times;
    var end := PushEnd(c);
    out := out + end;
    SectionsJoin(c, head, actor, times, end);
    return Ok(out);
  }

  lemma SectionsJoin(c: Commit, head: Bytes, actor: Bytes, times: Bytes, end: Bytes)
    requires Fits(c) && head == HeadBytes(c.graph, c.parents, c.patch, []) && actor == ActorBytes(c.actor, [])
    requires times == TimeBytes(c.activity, c.eventTime, c.recordedAt, [])
      && end == EndBytes(SortUnique(c.evidence), c.source, c.message)
    ensures HEADER + head + actor + times + end == Encode(c)
  {
    TimesSplit(c, end);
    ActorSplits(c.actor, times + end);
    HeadSplits(c, actor + (times + end));
    Associates(HEADER + head + actor, times, end);
    Associates(HEADER + head, actor, times + end);
    Associates(HEADER, head, actor + (times + end));
  }

  method PushActor(a: Actor) returns (out: Bytes)
    requires Short(a.id) && OptTo(a.onBehalfOf, x => Short(x))
    ensures out == ActorBytes(a, [])
  {
    out := Field(a.id);
    out := out + [WireByte(a.kind)];
    out := out + Optional(a.onBehalfOf);
    assert out == Field(a.id) + ([WireByte(a.kind)] + (Optional(a.onBehalfOf) + []));
  }

  lemma ActorSplits(a: Actor, rest: Bytes)
    requires Short(a.id) && OptTo(a.onBehalfOf, x => Short(x))
    ensures ActorBytes(a, rest) == ActorBytes(a, []) + rest
  {
    var x, y, z := Field(a.id), [WireByte(a.kind)], Optional(a.onBehalfOf);
    assert x + (y + (z + rest)) == (x + (y + (z + []))) + rest;
  }

  method PushTimes(c: Commit) returns (out: Bytes)
    requires Fits(c)
    ensures out == TimeBytes(c.activity, c.eventTime, c.recordedAt, [])
  {
    out := Field(c.activity);
    out := out + Optional(c.eventTime);
    out := out + Field(c.recordedAt);
    assert out == Field(c.activity) + (Optional(c.eventTime) + (Field(c.recordedAt) + []));
  }

  lemma TimesSplit(c: Commit, rest: Bytes)
    requires Fits(c)
    ensures TimeBytes(c.activity, c.eventTime, c.recordedAt, rest)
      == TimeBytes(c.activity, c.eventTime, c.recordedAt, []) + rest
  {
    var x, y, z := Field(c.activity), Optional(c.eventTime), Field(c.recordedAt);
    assert x + (y + (z + rest)) == (x + (y + (z + []))) + rest;
  }

  method PushEnd(c: Commit) returns (out: Bytes)
    requires Fits(c)
    ensures out == EndBytes(SortUnique(c.evidence), c.source, c.message)
  {
    var evidence := SortUnique(c.evidence);
    var refs := PushFields(evidence);
    out := U32(|evidence|) + refs;
    out := out + Optional(c.source);
    out := out + Field(c.message);
    assert out == U32(|evidence|) + (refs + (Optional(c.source) + Field(c.message)));
  }

  method PushFields(xs: seq<Bytes>) returns (out: Bytes)
    requires forall i :: 0 <= i < |xs| ==> Short(xs[i])
    ensures out == Fields(xs)
  {
    out := [];
    for i := 0 to |xs|
      invariant out == Fields(xs[..i])
    {
      FieldsAppend(xs[..i], xs[i]);
      assert xs[..i + 1] == xs[..i] + [xs[i]];
      out := out + Field(xs[i]);
    }
    assert xs[..|xs|] == xs;
  }

  method PushHead(c: Commit) returns (out: Bytes)
    requires Fits(c)
    ensures out == HeadBytes(c.graph, c.parents, c.patch, [])
  {
    var parents := PushFields(c.parents);
    out := Field(c.graph) + U32(|c.parents|) + parents + Field(c.patch);
    assert out == Field(c.graph) + (U32(|c.parents|) + (parents + (Field(c.patch) + [])));
  }

  lemma HeadSplits(c: Commit, rest: Bytes)
    requires Fits(c)
    ensures HeadBytes(c.graph, c.parents, c.patch, rest) == HeadBytes(c.graph, c.parents, c.patch, []) + rest
  {
    var a, b, d, e := Field(c.graph), U32(|c.parents|), Fields(c.parents), Field(c.patch);
    assert a + (b + (d + (e + rest))) == (a + (b + (d + (e + [])))) + rest;
  }

  // ---- the decoder ------------------------------------------------------------------------------------

  lemma FieldsStep(s: Bytes, xs: seq<Bytes>, x: Bytes, more: Bytes)
    requires (forall i :: 0 <= i < |xs| ==> Short(xs[i])) && Short(x) && s == Fields(xs) + (Field(x) + more)
    ensures s == Fields(xs + [x]) + more
  {
    FieldsAppend(xs, x);
    Associates(Fields(xs), Field(x), more);
  }

  predicate Texts(xs: seq<Bytes>) {
    forall k :: 0 <= k < |xs| ==> Short(xs[k]) && Utf8(xs[k])
  }

  lemma WantedField(want: seq<Bytes>, i: nat, tail: Bytes)
    requires i < |want| && Texts(want)
    ensures ReadField(Fields(want[i..]) + tail) == Ok((want[i], Fields(want[i + 1..]) + tail))
  {
    assert want[i..] == [want[i]] + want[i + 1..];
    assert Fields(want[i..]) + tail == Field(want[i]) + (Fields(want[i + 1..]) + tail);
    ReadsField(want[i], Fields(want[i + 1..]) + tail);
  }

  predicate Follows(xs: seq<Bytes>, x: Bytes) {
    xs != [] ==> Less(xs[|xs| - 1], x)
  }

  /** The parent and evidence loops: `n` fields, each accepted by `ok`, the evidence ones strictly
      ascending. Whatever list the input encodes, it is found. */
  method ReadRefs(s: Bytes, n: nat, ok: Bytes -> bool, ascending: bool, ghost hope: bool, ghost want: seq<Bytes>,
                  ghost tail: Bytes)
    returns (r: Result<(seq<Bytes>, Bytes)>)
    requires hope ==> |want| == n && Texts(want) && (forall i :: 0 <= i < n ==> ok(want[i]))
    requires hope ==> (ascending ==> Ascending(want)) && s == Fields(want) + tail
    ensures r.Ok? ==> |r.value.0| == n && (forall i :: 0 <= i < n ==> Short(r.value.0[i]) && ok(r.value.0[i]))
    ensures r.Ok? ==> (ascending ==> Ascending(r.value.0)) && s == Fields(r.value.0) + r.value.1
    ensures hope ==> r == Ok((want, tail))
  {
    var xs, rest := [], s;
    for i := 0 to n
      invariant |xs| == i && (forall k :: 0 <= k < i ==> Short(xs[k]) && ok(xs[k]))
      invariant (ascending ==> Ascending(xs)) && s == Fields(xs) + rest
      invariant hope ==> xs == want[..i] && rest == Fields(want[i..]) + tail
    {
      if hope { WantedField(want, i, tail); }
      var read := ReadField(rest);
      if read.Err? { return Err(read.reason); }
      var (x, more) := read.value;
      if !ok(x) { return Err("invalid reference"); }
      if ascending && !Follows(xs, x) { return Err("references must be strictly ascending"); }
      if ascending { AscendingGrows(xs, x); }
      FieldsStep(s, xs, x, more);
      xs, rest := xs + [x], more;
    }
    if hope { assert want[..n] == want && want[n..] == [] && [] + tail == tail; }
    return Ok((xs, rest));
  }

  lemma ContentIdIsText(x: Bytes)
    requires ContentId(x)
    ensures Utf8(x)
  {
    assert forall i :: 0 <= i < 7 ==> x[i] == x[..7][i];
    AsciiIsUtf8(x);
  }

  lemma AscendingGrows(xs: seq<Bytes>, x: Bytes)
    requires Ascending(xs) && Follows(xs, x)
    ensures Ascending(xs + [x])
  {
    forall i | 0 <= i < |xs| ensures Less(xs[i], x) {
      if i < |xs| - 1 { LessIsTransitive(xs[i], xs[|xs| - 1], x); }
    }
  }

  lemma ValidRefs(c: Commit)
    requires Valid(c)
    ensures Texts(c.parents) && Texts(SortUnique(c.evidence)) && Ascending(SortUnique(c.evidence))
    ensures forall x :: x in SortUnique(c.evidence) ==> Token(x, MAX_IDENTIFIER)
  {
    forall i | 0 <= i < |c.parents| ensures Utf8(c.parents[i]) { ContentIdIsText(c.parents[i]); }
    SortUniqueSorts(c.evidence);
    var sorted := SortUnique(c.evidence);
    forall x | x in sorted ensures Token(x, MAX_IDENTIFIER) { assert x in Members(sorted); }
    forall k | 0 <= k < |sorted| ensures Short(sorted[k]) && Utf8(sorted[k]) {
      assert Token(sorted[k], MAX_IDENTIFIER);
    }
  }

  method ReadHead(s: Bytes, ghost hope: bool, ghost c: Commit, ghost tail: Bytes)
    returns (r: Result<(Bytes, seq<Bytes>, Bytes, Bytes)>)
    requires hope ==> Valid(c) && s == HeadBytes(c.graph, c.parents, c.patch, tail)
    ensures r.Ok? ==>
      && GraphId(r.value.0) && |r.value.1| <= 2 && (forall i :: 0 <= i < |r.value.1| ==> ContentId(r.value.1[i]))
      && ContentId(r.value.2) && s == HeadBytes(r.value.0, r.value.1, r.value.2, r.value.3)
    ensures hope ==> r == Ok((c.graph, c.parents, c.patch, tail))
  {
    ghost var t3 := if hope then Field(c.patch) + tail else [];
    ghost var t2 := if hope then Fields(c.parents) + t3 else [];
    if hope {
      ValidRefs(c);
      ReadsField(c.graph, U32(|c.parents|) + t2);
      ReadsU32(|c.parents|, t2);
      ContentIdIsText(c.patch);
      ReadsField(c.patch, tail);
    }
    var graph := ReadField(s);
    if graph.Err? { return Err(graph.reason); }
    if !GraphId(graph.value.0) { return Err("invalid graph id"); }
    var count := ReadU32(graph.value.1);
    if count.Err? { return Err(count.reason); }
    if count.value.0 > 2 { return Err("at most two parents"); }
    var parents := ReadRefs(count.value.1, count.value.0, x => ContentId(x), false, hope, c.parents, t3);
    if parents.Err? { return Err(parents.reason); }
    var patch := ReadField(parents.value.1);
    if patch.Err? { return Err(patch.reason); }
    if !ContentId(patch.value.0) { return Err("invalid patch id"); }
    return Ok((graph.value.0, parents.value.0, patch.value.0, patch.value.1));
  }

  function FromWireByte(b: Byte): (r: Result<Principal>)
    ensures r.Ok? ==> WireByte(r.value) == b
  {
    if b == 0 then Ok(Human)
    else if b == 1 then Ok(Agent)
    else if b == 2 then Ok(Service)
    else Err("unknown principal_type byte")
  }

  /** The three reads of an actor's bytes. */
  lemma ReadsActor(a: Actor, tail: Bytes)
    requires Token(a.id, MAX_IDENTIFIER) && OptTo(a.onBehalfOf, x => Token(x, MAX_IDENTIFIER))
    ensures
      var t := Optional(a.onBehalfOf) + tail;
      && ReadField(ActorBytes(a, tail)) == Ok((a.id, [WireByte(a.kind)] + t))
      && ReadU8([WireByte(a.kind)] + t) == Ok((WireByte(a.kind), t)) && FromWireByte(WireByte(a.kind)) == Ok(a.kind)
      && ReadOptional(t) == Ok((a.onBehalfOf, tail))
  {
    var t := Optional(a.onBehalfOf) + tail;
    ReadsField(a.id, [WireByte(a.kind)] + t);
    assert ([WireByte(a.kind)] + t)[1..] == t;
    ReadsOptional(a.onBehalfOf, tail);
  }

  method ReadActor(s: Bytes, ghost hope: bool, ghost a: Actor, ghost tail: Bytes) returns (r: Result<(Actor, Bytes)>)
    requires hope ==>
      Token(a.id, MAX_IDENTIFIER) && OptTo(a.onBehalfOf, x => Token(x, MAX_IDENTIFIER)) && s == ActorBytes(a, tail)
    ensures r.Ok? ==>
      && Token(r.value.0.id, MAX_IDENTIFIER) && OptTo(r.value.0.onBehalfOf, x => Token(x, MAX_IDENTIFIER))
      && s == ActorBytes(r.value.0, r.value.1)
    ensures hope ==> r == Ok((a, tail))
  {
    if hope { ReadsActor(a, tail); }
    var id := ReadField(s);
    if id.Err? { return Err(id.reason); }
    if !Token(id.value.0, MAX_IDENTIFIER) { return Err("invalid principal id"); }
    var tag := ReadU8(id.value.1);
    if tag.Err? { return Err(tag.reason); }
    var kind := FromWireByte(tag.value.0);
    if kind.Err? { return Err(kind.reason); }
    var behalf := ReadOptional(tag.value.1);
    if behalf.Err? { return Err(behalf.reason); }
    if behalf.value.0.Some? && !Token(behalf.value.0.value, MAX_IDENTIFIER) { return Err("invalid on_behalf_of"); }
    return Ok((Actor(id.value.0, kind.value, behalf.value.0), behalf.value.1));
  }

  method ReadTimes(s: Bytes, ghost hope: bool, ghost c: Commit, ghost tail: Bytes)
    returns (r: Result<(Bytes, Option<Bytes>, Bytes, Bytes)>)
    requires hope ==> Valid(c) && s == TimeBytes(c.activity, c.eventTime, c.recordedAt, tail)
    ensures r.Ok? ==>
      && Short(r.value.0) && Utf8(r.value.0) && OptTo(r.value.1, x => CanonicalTime(x)) && CanonicalTime(r.value.2)
      && s == TimeBytes(r.value.0, r.value.1, r.value.2, r.value.3)
    ensures hope ==> r == Ok((c.activity, c.eventTime, c.recordedAt, tail))
  {
    if hope {
      TimeIsText(c.recordedAt);
      if c.eventTime.Some? { TimeIsText(c.eventTime.value); }
      var t := Field(c.recordedAt) + tail;
      ReadsField(c.activity, Optional(c.eventTime) + t);
      ReadsOptional(c.eventTime, t);
      ReadsField(c.recordedAt, tail);
    }
    var activity := ReadField(s);
    if activity.Err? { return Err(activity.reason); }
    var event := ReadOptional(activity.value.1);
    if event.Err? { return Err(event.reason); }
    if event.value.0.Some? && !CanonicalTime(event.value.0.value) { return Err("event_time is not canonical"); }
    var recorded := ReadField(event.value.1);
    if recorded.Err? { return Err(recorded.reason); }
    if !CanonicalTime(recorded.value.0) { return Err("recorded_at is not canonical"); }
    return Ok((activity.value.0, event.value.0, recorded.value.0, recorded.value.1));
  }

  lemma TimeIsText(x: Bytes)
    requires CanonicalTime(x)
    ensures Utf8(x) && Short(x) && x != []
  {
    forall i | 0 <= i < 27 ensures x[i] < 0x80 {
      if i < 4 { assert x[i] == x[..4][i]; }
      else if i == 5 || i == 6 { assert x[i] == x[5..7][i - 5]; }
      else if i == 8 || i == 9 { assert x[i] == x[8..10][i - 8]; }
      else if i == 11 || i == 12 { assert x[i] == x[11..13][i - 11]; }
      else if i == 14 || i == 15 { assert x[i] == x[14..16][i - 14]; }
      else if i == 17 || i == 18 { assert x[i] == x[17..19][i - 17]; }
      else if 20 <= i < 26 { assert x[i] == x[20..26][i - 20]; }
    }
    AsciiIsUtf8(x);
  }

  method ReadEnd(s: Bytes, ghost hope: bool, ghost c: Commit) returns (r: Result<(seq<Bytes>, Option<Bytes>, Bytes)>)
    requires hope ==> Valid(c) && Fits(c) && s == EndBytes(SortUnique(c.evidence), c.source, c.message)
    ensures r.Ok? ==>
      && Ascending(r.value.0) && |r.value.0| <= MAX_EVIDENCE
      && (forall i :: 0 <= i < |r.value.0| ==> Short(r.value.0[i]) && Utf8(r.value.0[i]))
      && OptTo(r.value.1, x => Short(x) && Utf8(x)) && Short(r.value.2) && Utf8(r.value.2)
      && s == EndBytes(r.value.0, r.value.1, r.value.2)
    ensures hope ==> r == Ok((SortUnique(c.evidence), c.source, c.message))
  {
    ghost var evidence := if hope then SortUnique(c.evidence) else [];
    ghost var t3 := if hope then Optional(c.source) + Field(c.message) else [];
    if hope {
      ValidRefs(c);
      ReadsU32(|evidence|, Fields(evidence) + t3);
      ReadsOptional(c.source, Field(c.message));
      assert Field(c.message) + [] == Field(c.message);
      ReadsField(c.message, []);
    }
    var count := ReadU32(s);
    if count.Err? { return Err(count.reason); }
    if count.value.0 > MAX_EVIDENCE { return Err("too many evidence references"); }
    var refs := ReadRefs(count.value.1, count.value.0, x => Utf8(x), true, hope, evidence, t3);
    if refs.Err? { return Err(refs.reason); }
    var source := ReadOptional(refs.value.1);
    if source.Err? { return Err(source.reason); }
    var message := ReadField(source.value.1);
    if message.Err? { return Err(message.reason); }
    if message.value.1 != [] { return Err("trailing bytes"); }
    assert Field(message.value.0) + [] == Field(message.value.0);
    return Ok((refs.value.0, source.value.0, message.value.0));
  }

  predicate Starts(bytes: Bytes, prefix: Bytes) {
    |bytes| >= |prefix| && bytes[..|prefix|] == prefix
  }

  /** The sections of a commit, in order. Valid ones re-encode to what was read, and the sections of
      a valid commit are found. */
  method ReadSections(bytes: Bytes, ghost hope: bool, ghost c: Commit) returns (r: Result<Commit>)
    requires Starts(bytes, HEADER) && (hope ==> Encodes(bytes, c))
    ensures r.Ok? ==> Typed(r.value) && (Validates(r.value) ==> Encodes(bytes, r.value) && Ascending(r.value.evidence))
    ensures hope ==> r == Ok(Canonical(c))
  {
    ghost var t3 := if hope then EndBytes(SortUnique(c.evidence), c.source, c.message) else [];
    ghost var t2 := if hope then TimeBytes(c.activity, c.eventTime, c.recordedAt, t3) else [];
    ghost var t1 := if hope then ActorBytes(c.actor, t2) else [];
    if hope { assert bytes[|HEADER|..] == HeadBytes(c.graph, c.parents, c.patch, t1); }
    var head := ReadHead(bytes[|HEADER|..], hope, c, t1);
    if head.Err? { return Err(head.reason); }
    var actor := ReadActor(head.value.3, hope, c.actor, t2);
    if actor.Err? { return Err(actor.reason); }
    var times := ReadTimes(actor.value.1, hope, c, t3);
    if times.Err? { return Err(times.reason); }
    var end := ReadEnd(times.value.3, hope, c);
    if end.Err? { return Err(end.reason); }
    var d := Commit(head.value.0, head.value.1, head.value.2, actor.value.0,
                    times.value.0, times.value.1, times.value.2,
                    end.value.0, end.value.1, end.value.2);
    if Validates(d) { Reencodes(bytes, d, head.value.3, actor.value.1, times.value.3); }
    return Ok(d);
  }

  /** The bytes are the encoding of a valid commit. */
  predicate Encodes(bytes: Bytes, c: Commit) {
    Valid(c) && Fits(c) && bytes == Encode(c)
  }

  /** The strict decoder accepts exactly the encodings of valid commits. What it returns is valid, has
      its evidence sorted and unique, and re-encodes to the input. */
  method FromCanonicalBytes(bytes: Bytes) returns (r: Result<Commit>)
    ensures r.Ok? <==> exists c :: Encodes(bytes, c)
    ensures r.Ok? ==> Encodes(bytes, r.value) && Ascending(r.value.evidence)
  {
    ghost var hope := exists c :: Encodes(bytes, c);
    ghost var c := Commit([], [], [], Actor([], Human, None), [], None, [], [], None, []);
    if hope {
      c :| Encodes(bytes, c);
      assert bytes[..|HEADER|] == HEADER;
      CanonicalIsValid(c);
    }
    if !Starts(bytes, HEADER) { return Err("unknown header"); }
    r := ReadSections(bytes, hope, c);
    if r.Ok? && !Validates(r.value) { return Err("invalid commit"); }
  }

  lemma Reencodes(bytes: Bytes, d: Commit, r1: Bytes, r2: Bytes, r3: Bytes)
    requires Valid(d) && Ascending(d.evidence) && |d.evidence| < U32_LIMIT && (forall x :: x in d.evidence ==> Short(x))
    requires Starts(bytes, HEADER) && bytes[|HEADER|..] == HeadBytes(d.graph, d.parents, d.patch, r1)
    requires OptTo(d.actor.onBehalfOf, x => Short(x)) && r1 == ActorBytes(d.actor, r2)
    requires OptTo(d.eventTime, x => Short(x)) && r2 == TimeBytes(d.activity, d.eventTime, d.recordedAt, r3)
    requires OptTo(d.source, x => Short(x)) && r3 == EndBytes(d.evidence, d.source, d.message)
    ensures Fits(d) && bytes == Encode(d)
  {
    AscendingIsSorted(d.evidence);
    ValidFits(d);
    assert bytes == HEADER + bytes[|HEADER|..];
  }

  lemma AscendingIsSorted(xs: seq<Bytes>)
    requires Ascending(xs)
    ensures SortUnique(xs) == xs
  {
    SortUniqueSorts(xs);
    AscendingIsCanonical(SortUnique(xs), xs);
  }

  lemma CanonicalIsValid(c: Commit)
    requires Valid(c)
    ensures Valid(Canonical(c)) && Fits(Canonical(c)) && SortUnique(Canonical(c).evidence) == Canonical(c).evidence
  {
    ValidRefs(c);
    AscendingIsSorted(SortUnique(c.evidence));
    var d := Canonical(c);
    forall i | 0 <= i < |d.evidence| ensures Token(d.evidence[i], MAX_IDENTIFIER) {
      assert d.evidence[i] in SortUnique(c.evidence);
    }
    ValidFits(d);
  }

  // ---- identity ---------------------------------------------------------------------------------------

  lemma {:induction false} FieldsCancel(a: seq<Bytes>, b: seq<Bytes>, r: Bytes, s: Bytes)
    requires |a| == |b| && (forall i :: 0 <= i < |a| ==> Short(a[i])) && (forall i :: 0 <= i < |b| ==> Short(b[i]))
    requires Fields(a) + r == Fields(b) + s
    ensures a == b && r == s
  {
    if a == [] {
      assert Fields(a) + r == r && Fields(b) + s == s;
    } else {
      var x, y := Fields(a[1..]), Fields(b[1..]);
      Associates(Field(a[0]), x, r);
      Associates(Field(b[0]), y, s);
      FieldCancels(a[0], b[0], x + r, y + s);
      FieldsCancel(a[1..], b[1..], r, s);
      assert a == [a[0]] + a[1..] && b == [b[0]] + b[1..];
    }
  }

  lemma OptionalCancels(a: Option<Bytes>, b: Option<Bytes>, r: Bytes, s: Bytes)
    requires OptTo(a, x => Short(x)) && OptTo(b, x => Short(x)) && Optional(a) + r == Optional(b) + s
    ensures a == b && r == s
  {
    OptionalSplits(a, r);
    OptionalSplits(b, s);
    if a.Some? { FieldCancels(a.value, b.value, r, s); }
  }

  lemma OptionalSplits(a: Option<Bytes>, r: Bytes)
    requires OptTo(a, x => Short(x))
    ensures (Optional(a) + r)[0] == (if a.Some? then 1 else 0)
    ensures (Optional(a) + r)[1..] == if a.Some? then Field(a.value) + r else r
  {
  }

  lemma CountCancels(m: nat, n: nat, r: Bytes, s: Bytes)
    requires m < U32_LIMIT && n < U32_LIMIT && U32(m) + r == U32(n) + s
    ensures m == n && r == s
  {
    U32RoundTrip(m, r);
    U32RoundTrip(n, s);
  }

  lemma HeadCancels(a: Commit, b: Commit, r: Bytes, s: Bytes)
    requires Fits(a) && Fits(b)
    requires HeadBytes(a.graph, a.parents, a.patch, r) == HeadBytes(b.graph, b.parents, b.patch, s)
    ensures a.graph == b.graph && a.parents == b.parents && a.patch == b.patch && r == s
  {
    var ta, tb := Fields(a.parents) + (Field(a.patch) + r), Fields(b.parents) + (Field(b.patch) + s);
    FieldCancels(a.graph, b.graph, U32(|a.parents|) + ta, U32(|b.parents|) + tb);
    CountCancels(|a.parents|, |b.parents|, ta, tb);
    FieldsCancel(a.parents, b.parents, Field(a.patch) + r, Field(b.patch) + s);
    FieldCancels(a.patch, b.patch, r, s);
  }

  lemma ActorCancels(a: Actor, b: Actor, r: Bytes, s: Bytes)
    requires Short(a.id) && Short(b.id) && OptTo(a.onBehalfOf, x => Short(x)) && OptTo(b.onBehalfOf, x => Short(x))
    requires ActorBytes(a, r) == ActorBytes(b, s)
    ensures a == b && r == s
  {
    var ta, tb := Optional(a.onBehalfOf) + r, Optional(b.onBehalfOf) + s;
    var ka, kb := [WireByte(a.kind)] + ta, [WireByte(b.kind)] + tb;
    FieldCancels(a.id, b.id, ka, kb);
    assert ka[0] == kb[0] && ka[1..] == ta && kb[1..] == tb;
    OptionalCancels(a.onBehalfOf, b.onBehalfOf, r, s);
  }

  lemma TimesCancel(a: Commit, b: Commit, r: Bytes, s: Bytes)
    requires Fits(a) && Fits(b)
    requires TimeBytes(a.activity, a.eventTime, a.recordedAt, r) == TimeBytes(b.activity, b.eventTime, b.recordedAt, s)
    ensures a.activity == b.activity && a.eventTime == b.eventTime && a.recordedAt == b.recordedAt && r == s
  {
    var ta, tb := Field(a.recordedAt) + r, Field(b.recordedAt) + s;
    FieldCancels(a.activity, b.activity, Optional(a.eventTime) + ta, Optional(b.eventTime) + tb);
    OptionalCancels(a.eventTime, b.eventTime, ta, tb);
    FieldCancels(a.recordedAt, b.recordedAt, r, s);
  }

  lemma EndCancels(x: seq<Bytes>, y: seq<Bytes>, a: Commit, b: Commit)
    requires Fits(a) && Fits(b) && x == SortUnique(a.evidence) && y == SortUnique(b.evidence)
    requires EndBytes(x, a.source, a.message) == EndBytes(y, b.source, b.message)
    ensures x == y && a.source == b.source && a.message == b.message
  {
    var ta, tb := Optional(a.source) + Field(a.message), Optional(b.source) + Field(b.message);
    CountCancels(|x|, |y|, Fields(x) + ta, Fields(y) + tb);
    FieldsCancel(x, y, ta, tb);
    OptionalCancels(a.source, b.source, Field(a.message), Field(b.message));
    assert Field(a.message) + [] == Field(a.message) && Field(b.message) + [] == Field(b.message);
    FieldCancels(a.message, b.message, [], []);
  }

  /** Two valid commits share bytes exactly when they agree on every field, evidence as a set. */
  lemma SameBytesExactlyWhenSameCommit(a: Commit, b: Commit)
    requires Valid(a) && Valid(b)
    ensures Fits(a) && Fits(b)
    ensures Encode(a) == Encode(b) <==>
      a.(evidence := []) == b.(evidence := []) && Members(a.evidence) == Members(b.evidence)
  {
    ValidFits(a);
    ValidFits(b);
    SortUniqueIsTheSet(a.evidence, b.evidence);
    if Encode(a) == Encode(b) {
      var a3 := EndBytes(SortUnique(a.evidence), a.source, a.message);
      var b3 := EndBytes(SortUnique(b.evidence), b.source, b.message);
      var a2 := TimeBytes(a.activity, a.eventTime, a.recordedAt, a3);
      var b2 := TimeBytes(b.activity, b.eventTime, b.recordedAt, b3);
      var a1, b1 := ActorBytes(a.actor, a2), ActorBytes(b.actor, b2);
      assert Encode(a)[|HEADER|..] == HeadBytes(a.graph, a.parents, a.patch, a1);
      assert Encode(b)[|HEADER|..] == HeadBytes(b.graph, b.parents, b.patch, b1);
      HeadCancels(a, b, a1, b1);
      ActorCancels(a.actor, b.actor, a2, b2);
      TimesCancel(a, b, a3, b3);
      EndCancels(SortUnique(a.evidence), SortUnique(b.evidence), a, b);
    }
  }

  /** What is decoded from the encoding of a valid commit is that commit, evidence sorted and unique. */
  lemma DecodesToCanonical(bytes: Bytes, c: Commit, d: Commit)
    requires Encodes(bytes, c) && Encodes(bytes, d) && Ascending(d.evidence)
    ensures d == Canonical(c)
  {
    SameBytesExactlyWhenSameCommit(c, d);
    SortUniqueSorts(c.evidence);
    AscendingIsCanonical(SortUnique(c.evidence), d.evidence);
  }
}
