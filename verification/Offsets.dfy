/** Byte layouts described by position, independently of any encoder: what lies at which offset,
    numbers by their positional value. A layout fixes its bytes. */
module Offsets {
  import opened Basics
  import opened Wire
  import T = Text

  /** Bare ASCII text, four bytes of number, one byte, a text after its length, an ASCII word after
      its length, an optional text after its tag, and bytes as they are. */
  datatype Item =
    | Literal(text: string)
    | Number(n: nat)
    | Tag(b: Byte)
    | Text(x: Bytes)
    | Word(word: string)
    | Maybe(o: Option<Bytes>)
    | Raw(bytes: Bytes)

  /** The value of big-endian digits of base 256. */
  function Positional(s: Bytes): nat {
    if s == [] then 0 else Positional(s[..|s| - 1]) * 256 + s[|s| - 1] as int
  }

  predicate NumberAt(b: Bytes, at: nat, n: nat) {
    at + 4 <= |b| && Positional(b[at..at + 4]) == n
  }

  predicate BytesAt(b: Bytes, at: nat, x: Bytes) {
    at + |x| <= |b| && b[at..at + |x|] == x
  }

  predicate TextAt(b: Bytes, at: nat, x: Bytes) {
    NumberAt(b, at, |x|) && BytesAt(b, at + 4, x)
  }

  function Width(i: Item): nat {
    match i
    case Literal(text) => |text|
    case Number(_) => 4
    case Tag(_) => 1
    case Text(x) => 4 + |x|
    case Word(text) => 4 + |text|
    case Maybe(o) => if o.Some? then 5 + |o.value| else 1
    case Raw(x) => |x|
  }

  predicate Spells(x: Bytes, text: string) {
    |x| == |text| && forall k :: 0 <= k < |text| ==> x[k] == text[k] as int
  }

  predicate SpelledAt(b: Bytes, at: nat, text: string) {
    at + |text| <= |b| && Spells(b[at..at + |text|], text)
  }

  predicate Holds(b: Bytes, at: nat, i: Item) {
    match i
    case Literal(text) => SpelledAt(b, at, text)
    case Number(n) => NumberAt(b, at, n)
    case Tag(t) => at < |b| && b[at] == t
    case Text(x) => TextAt(b, at, x)
    case Word(text) => NumberAt(b, at, |text|) && SpelledAt(b, at + 4, text)
    case Maybe(o) => at < |b| && b[at] == (if o.Some? then 1 else 0) && (o.Some? ==> TextAt(b, at + 1, o.value))
    case Raw(x) => BytesAt(b, at, x)
  }

  /** The items follow one another from `at` to the end of the bytes. */
  predicate LaidOut(b: Bytes, at: nat, items: seq<Item>)
    decreases |items|
  {
    if items == [] then at == |b| else Holds(b, at, items[0]) && LaidOut(b, at + Width(items[0]), items[1..])
  }

  function Texts(xs: seq<Bytes>): seq<Item> {
    seq(|xs|, i requires 0 <= i < |xs| => Text(xs[i]))
  }

  // ---- a layout fixes its bytes -----------------------------------------------------------------

  lemma PositionalIsInjective(s: Bytes, t: Bytes)
    requires |s| == 4 && |t| == 4 && Positional(s) == Positional(t)
    ensures s == t
  {
    FourDigits(s);
    FourDigits(t);
    assert FromU32(s) == FromU32(t);
    FromU32RoundTrip(s);
    FromU32RoundTrip(t);
    assert s[4..] == [] && t[4..] == [];
  }

  lemma FourDigits(s: Bytes)
    requires |s| == 4
    ensures Positional(s) == FromU32(s)
  {
    assert s[..3][..2] == s[..2] && s[..2][..1] == s[..1] && s[..1][..0] == [];
    assert Positional(s[..1]) == s[0] as int && Positional(s[..2]) == s[0] as int * 256 + s[1] as int;
    assert Positional(s[..3]) == (s[0] as int * 256 + s[1] as int) * 256 + s[2] as int;
  }

  lemma U32IsPositional(n: nat)
    requires n < U32_LIMIT
    ensures Positional(U32(n)) == n
  {
    FourDigits(U32(n));
    U32RoundTrip(n, []);
    assert U32(n) + [] == U32(n);
  }

  lemma TextFixesBytes(a: Bytes, b: Bytes, at: nat, x: Bytes)
    requires TextAt(a, at, x) && TextAt(b, at, x)
    ensures a[at..at + 4 + |x|] == b[at..at + 4 + |x|]
  {
    PositionalIsInjective(a[at..at + 4], b[at..at + 4]);
    assert a[at..at + 4 + |x|] == a[at..at + 4] + a[at + 4..at + 4 + |x|];
    assert b[at..at + 4 + |x|] == b[at..at + 4] + b[at + 4..at + 4 + |x|];
  }

  lemma SpellingFixesBytes(x: Bytes, y: Bytes, text: string)
    requires Spells(x, text) && Spells(y, text)
    ensures x == y
  {
    forall k | 0 <= k < |text| ensures x[k] == y[k] { assert x[k] == text[k] as int; }
  }

  lemma ItemFixesBytes(a: Bytes, b: Bytes, at: nat, i: Item)
    requires Holds(a, at, i) && Holds(b, at, i)
    ensures at + Width(i) <= |a| && at + Width(i) <= |b| && a[at..at + Width(i)] == b[at..at + Width(i)]
  {
    match i
    case Number(n) => PositionalIsInjective(a[at..at + 4], b[at..at + 4]);
    case Text(x) => TextFixesBytes(a, b, at, x);
    case Maybe(o) =>
      if o.Some? {
        TextFixesBytes(a, b, at + 1, o.value);
        var end := at + 5 + |o.value|;
        assert a[at..end] == [a[at]] + a[at + 1..end] && b[at..end] == [b[at]] + b[at + 1..end];
      }
    case Literal(text) => SpellingFixesBytes(a[at..at + |text|], b[at..at + |text|], text);
    case Word(text) =>
      var mid, end := at + 4, at + 4 + |text|;
      PositionalIsInjective(a[at..mid], b[at..mid]);
      SpellingFixesBytes(a[mid..end], b[mid..end], text);
      assert a[at..end] == a[at..mid] + a[mid..end] && b[at..end] == b[at..mid] + b[mid..end];
    case Tag(t) => assert a[at..at + 1] == [t] && b[at..at + 1] == [t];
    case Raw(x) =>
  }

  /** Bytes laid out alike are equal. */
  lemma {:induction false} LayoutFixesBytes(a: Bytes, b: Bytes, at: nat, items: seq<Item>)
    requires LaidOut(a, at, items) && LaidOut(b, at, items)
    ensures at <= |a| && at <= |b| && a[at..] == b[at..]
    decreases |items|
  {
    if items != [] {
      var next := at + Width(items[0]);
      ItemFixesBytes(a, b, at, items[0]);
      LayoutFixesBytes(a, b, next, items[1..]);
      assert a[at..] == a[at..next] + a[next..] && b[at..] == b[at..next] + b[next..];
    }
  }

  // ---- what the encoders write ------------------------------------------------------------------

  predicate IsAscii(text: string) { forall k :: 0 <= k < |text| ==> text[k] as int < 128 }

  /** Numbers and lengths fit four bytes, literals are ASCII. */
  predicate Fit(i: Item) {
    match i
    case Literal(text) => IsAscii(text)
    case Number(n) => n < U32_LIMIT
    case Word(text) => IsAscii(text) && |text| < U32_LIMIT
    case Text(x) => Short(x)
    case Maybe(o) => o.Some? ==> Short(o.value)
    case _ => true
  }

  predicate AllFit(items: seq<Item>) { forall i :: 0 <= i < |items| ==> Fit(items[i]) }

  function Written(i: Item): Bytes
    requires Fit(i)
  {
    match i
    case Literal(text) => Ascii(text)
    case Number(n) => U32(n)
    case Tag(b) => [b]
    case Text(x) => Field(x)
    case Word(text) => Field(Ascii(text))
    case Maybe(o) => if o.Some? then [1] + Field(o.value) else [0]
    case Raw(x) => x
  }

  function Joined(items: seq<Item>): Bytes
    requires AllFit(items)
  {
    if items == [] then [] else Written(items[0]) + Joined(items[1..])
  }

  lemma BytesAreThere(p: Bytes, x: Bytes, rest: Bytes)
    ensures BytesAt(p + (x + rest), |p|, x)
  {
  }

  lemma NumberIsThere(p: Bytes, n: nat, rest: Bytes)
    requires n < U32_LIMIT
    ensures NumberAt(p + (U32(n) + rest), |p|, n)
  {
    BytesAreThere(p, U32(n), rest);
    U32IsPositional(n);
  }

  lemma TextIsThere(p: Bytes, x: Bytes, rest: Bytes)
    requires Short(x)
    ensures TextAt(p + (Field(x) + rest), |p|, x)
  {
    Associates(U32(|x|), x, rest);
    NumberIsThere(p, |x|, x + rest);
    Associates(p, U32(|x|), x + rest);
    BytesAreThere(p + U32(|x|), x, rest);
  }

  lemma MaybeIsThere(p: Bytes, o: Option<Bytes>, rest: Bytes)
    requires o.Some? ==> Short(o.value)
    ensures Holds(p + (Written(Maybe(o)) + rest), |p|, Maybe(o))
  {
    if o.Some? {
      Associates([1], Field(o.value), rest);
      Associates(p, [1], Field(o.value) + rest);
      TextIsThere(p + [1], o.value, rest);
    }
  }

  lemma LiteralIsThere(p: Bytes, text: string, rest: Bytes)
    requires Fit(Literal(text))
    ensures Holds(p + (Ascii(text) + rest), |p|, Literal(text))
  {
    BytesAreThere(p, Ascii(text), rest);
  }

  lemma ItemIsThere(p: Bytes, i: Item, rest: Bytes)
    requires Fit(i)
    ensures Holds(p + (Written(i) + rest), |p|, i)
  {
    match i
    case Literal(text) => LiteralIsThere(p, text, rest);
    case Number(n) => NumberIsThere(p, n, rest);
    case Tag(b) =>
    case Text(x) => TextIsThere(p, x, rest);
    case Word(text) => TextIsThere(p, Ascii(text), rest);
    case Maybe(o) => MaybeIsThere(p, o, rest);
    case Raw(x) => BytesAreThere(p, x, rest);
  }

  lemma NextStarts(b: Bytes, at: nat, x: Bytes, rest: Bytes)
    requires at <= |b| && b[at..] == x + rest
    ensures b == b[..at] + (x + rest) && at + |x| <= |b| && b[at + |x|..] == rest
  {
    assert b[at + |x|..] == b[at..][|x|..];
  }

  lemma ItemAt(b: Bytes, at: nat, i: Item, rest: Bytes)
    requires Fit(i) && at <= |b| && b[at..] == Written(i) + rest
    ensures Holds(b, at, i) && at + Width(i) <= |b| && b[at + Width(i)..] == rest
  {
    NextStarts(b, at, Written(i), rest);
    ItemIsThere(b[..at], i, rest);
  }

  lemma {:induction false} JoinedIsLaidOut(b: Bytes, at: nat, items: seq<Item>)
    requires AllFit(items) && at <= |b| && b[at..] == Joined(items)
    ensures LaidOut(b, at, items)
    decreases |items|
  {
    if items != [] {
      ItemAt(b, at, items[0], Joined(items[1..]));
      JoinedIsLaidOut(b, at + Width(items[0]), items[1..]);
    }
  }

  /** The bytes laid out so are what joining the encoders' pieces gives, and nothing else. */
  lemma LaidOutExactly(b: Bytes, items: seq<Item>)
    requires AllFit(items)
    ensures LaidOut(b, 0, items) <==> b == Joined(items)
  {
    JoinedIsLaidOut(Joined(items), 0, items);
    if LaidOut(b, 0, items) {
      LayoutFixesBytes(b, Joined(items), 0, items);
      assert b[0..] == b && Joined(items)[0..] == Joined(items);
    }
  }

  lemma JoinedOne(a: Item, rest: seq<Item>)
    requires Fit(a) && AllFit(rest)
    ensures AllFit([a] + rest) && Joined([a] + rest) == Written(a) + Joined(rest)
  {
    assert ([a] + rest)[1..] == rest;
  }

  lemma JoinedTwo(a: Item, b: Item, rest: seq<Item>)
    requires Fit(a) && Fit(b) && AllFit(rest)
    ensures AllFit([a, b] + rest) && Joined([a, b] + rest) == Written(a) + (Written(b) + Joined(rest))
  {
    JoinedOne(b, rest);
    JoinedOne(a, [b] + rest);
    assert [a, b] + rest == [a] + ([b] + rest);
  }

  lemma JoinedThree(a: Item, b: Item, c: Item, rest: seq<Item>)
    requires Fit(a) && Fit(b) && Fit(c) && AllFit(rest)
    ensures AllFit([a, b, c] + rest)
    ensures Joined([a, b, c] + rest) == Written(a) + (Written(b) + (Written(c) + Joined(rest)))
  {
    JoinedTwo(b, c, rest);
    JoinedOne(a, [b, c] + rest);
    assert [a, b, c] + rest == [a] + ([b, c] + rest);
  }

  lemma {:induction false} JoinedAppends(a: seq<Item>, b: seq<Item>)
    requires AllFit(a) && AllFit(b)
    ensures AllFit(a + b) && Joined(a + b) == Joined(a) + Joined(b)
  {
    if a == [] {
      assert a + b == b;
    } else {
      JoinedAppends(a[1..], b);
      JoinedOne(a[0], a[1..] + b);
      assert a + b == [a[0]] + (a[1..] + b);
      Associates(Written(a[0]), Joined(a[1..]), Joined(b));
    }
  }

  /** Each line with its line feed. */
  function LineItems(lines: seq<Bytes>): seq<Item> {
    if lines == [] then [] else [Raw(lines[0]), Tag(10)] + LineItems(lines[1..])
  }

  lemma {:induction false} LinesAreJoined(lines: seq<Bytes>)
    ensures AllFit(LineItems(lines)) && Joined(LineItems(lines)) == T.Unlines(lines)
  {
    if lines != [] {
      LinesAreJoined(lines[1..]);
      JoinedTwo(Raw(lines[0]), Tag(10), LineItems(lines[1..]));
      Associates(lines[0], [T.LF], T.Unlines(lines[1..]));
    }
  }
}
