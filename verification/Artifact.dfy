/** The prepared artifact: a header line, then counted blocks of statement lines. Printing and
    parsing are inverse exactly when no statement ends in a carriage return, because the line
    splitter drops one before a line feed. */
module Artifact {
  import opened Basics
  import opened Wire
  import opened Text
  import opened Lineage
  import opened BearWorkload

  const CR: Byte := 13
  const SPACE: Byte := 32
  const STEPS := 11
  const USIZE_LIMIT := 0x1_0000_0000_0000_0000

  // ---- lines -------------------------------------------------------------------------------------------

  function StripCr(x: Bytes): Bytes {
    if x != [] && x[|x| - 1] == CR then x[..|x| - 1] else x
  }

  predicate EndsInCr(x: Bytes) { x != [] && x[|x| - 1] == CR }

  /** Split at line feeds; a terminated line also loses one carriage return. */
  function Lines(t: Bytes): seq<Bytes> {
    if t == [] then []
    else if LF in t then [StripCr(t[..IndexOf(t, LF)])] + Lines(t[IndexOf(t, LF) + 1..])
    else [t]
  }

  function Stripped(ls: seq<Bytes>): (r: seq<Bytes>)
    ensures |r| == |ls| && forall i :: 0 <= i < |ls| ==> r[i] == StripCr(ls[i])
  {
    seq(|ls|, i requires 0 <= i < |ls| => StripCr(ls[i]))
  }

  lemma {:induction false} LinesOfUnlines(ls: seq<Bytes>)
    requires FeedFree(ls)
    ensures Lines(Unlines(ls)) == Stripped(ls)
  {
    if ls != [] {
      var x, rest := ls[0], Unlines(ls[1..]);
      IndexAfter(x, LF, rest);
      LinesOfUnlines(ls[1..]);
      assert Stripped(ls) == [StripCr(x)] + Stripped(ls[1..]);
    }
  }

  // ---- words and numbers -----------------------------------------------------------------------------------

  function Words(t: Bytes): seq<Bytes> {
    if SPACE in t then [t[..IndexOf(t, SPACE)]] + Words(t[IndexOf(t, SPACE) + 1..]) else [t]
  }

  lemma WordsStep(x: Bytes, rest: Bytes)
    requires SPACE !in x
    ensures Words(x + [SPACE] + rest) == [x] + Words(rest)
  {
    IndexAfter(x, SPACE, rest);
  }

  /** An optional plus sign and digits, within 64 bits. */
  function ParseUsize(s: Bytes): Option<nat> {
    var d := if s != [] && s[0] == 43 then s[1..] else s;
    if d != [] && Digits(d) && Number(d) < USIZE_LIMIT then Some(Number(d)) else None
  }

  lemma ParsesDigits(n: nat)
    requires n < USIZE_LIMIT
    ensures ParseUsize(DigitsOf(n)) == Some(n) && SPACE !in DigitsOf(n) && LF !in DigitsOf(n) && !EndsInCr(DigitsOf(n))
  {
    DigitsRoundTrip(n);
  }

  // ---- printing ----------------------------------------------------------------------------------------------

  const BASE := Ascii("base")
  const STEP := Ascii("step")

  function BaseHead(start: nat, n: nat): Bytes {
    BASE + [SPACE] + (([118] + DigitsOf(start)) + [SPACE] + DigitsOf(n))
  }

  function StepHead(v: nat, d: nat, a: nat): Bytes {
    STEP + [SPACE] + (([118] + DigitsOf(v)) + [SPACE] + (DigitsOf(d) + [SPACE] + DigitsOf(a)))
  }

  /** A step's statements in printing order. */
  datatype Listed = Listed(dels: seq<Bytes>, adds: seq<Bytes>)

  function ListAll(steps: seq<Step>): (r: seq<Listed>)
    ensures |r| == |steps| && forall i :: 0 <= i < |steps| ==>
      r[i] == Listed(Listing(steps[i].dels), Listing(steps[i].adds))
  {
    seq(|steps|, i requires 0 <= i < |steps| => Listed(Listing(steps[i].dels), Listing(steps[i].adds)))
  }

  function StepLines(v: nat, ls: seq<Listed>): seq<Bytes>
    decreases |ls|
  {
    if ls == [] then []
    else [StepHead(v + 1, |ls[0].dels|, |ls[0].adds|)] + (ls[0].dels + (ls[0].adds + StepLines(v + 1, ls[1..])))
  }

  function BodyLines(p: Prepared): seq<Bytes> {
    [BaseHead(p.start, |Listing(p.base)|)] + (Listing(p.base) + StepLines(p.start, ListAll(p.steps)))
  }

  /** The header line, the base block, then one block per step. */
  function Render(header: Bytes, p: Prepared): Bytes {
    Unlines([header] + BodyLines(p))
  }

  lemma {:induction false} UnlinesJoin(a: seq<Bytes>, b: seq<Bytes>)
    ensures Unlines(a + b) == Unlines(a) + Unlines(b)
  {
    if a == [] {
      assert a + b == b;
    } else {
      UnlinesJoin(a[1..], b);
      assert (a + b)[1..] == a[1..] + b;
      assert a[0] + [LF] + (Unlines(a[1..]) + Unlines(b)) == (a[0] + [LF] + Unlines(a[1..])) + Unlines(b);
    }
  }

  method PushLines(out: Bytes, ls: seq<Bytes>) returns (r: Bytes)
    ensures r == out + Unlines(ls)
  {
    r := out;
    for i := 0 to |ls|
      invariant r + Unlines(ls[i..]) == out + Unlines(ls)
    {
      ghost var rest := Unlines(ls[i + 1..]);
      assert ls[i..][1..] == ls[i + 1..];
      assert r + (ls[i] + [LF] + rest) == r + ls[i] + [LF] + rest;
      r := r + ls[i] + [LF];
    }
    assert ls[|ls|..] == [];
  }

  function BlockLines(v: nat, l: Listed): seq<Bytes> {
    [StepHead(v, |l.dels|, |l.adds|)] + l.dels + l.adds
  }

  method PushSteps(out: Bytes, v: nat, ls: seq<Listed>) returns (r: Bytes)
    ensures r == out + Unlines(StepLines(v, ls))
  {
    r := out;
    for i := 0 to |ls|
      invariant r + Unlines(StepLines(v + i, ls[i..])) == out + Unlines(StepLines(v, ls))
    {
      StepLinesSplit(v + i, ls[i..]);
      assert ls[i..][1..] == ls[i + 1..];
      Associates(r, Unlines(BlockLines(v + i + 1, ls[i])), Unlines(StepLines(v + i + 1, ls[i + 1..])));
      r := PushLines(r, BlockLines(v + i + 1, ls[i]));
    }
    assert ls[|ls|..] == [];
  }

  /** The printer: header, base block, one block per step, each line ended by a line feed. */
  method RenderArtifact(header: Bytes, p: Prepared) returns (out: Bytes)
    ensures out == Render(header, p)
  {
    var base := Listing(p.base);
    out := PushLines([], [header, BaseHead(p.start, |base|)]);
    out := PushLines(out, base);
    RenderSplits(header, p);
    out := PushSteps(out, p.start, ListAll(p.steps));
  }

  lemma Regroup(h: Bytes, d: seq<Bytes>, a: seq<Bytes>, rest: seq<Bytes>)
    ensures [h] + (d + (a + rest)) == ([h] + d + a) + rest
  {
  }

  lemma StepLinesSplit(v: nat, ls: seq<Listed>)
    requires ls != []
    ensures Unlines(StepLines(v, ls)) == Unlines(BlockLines(v + 1, ls[0])) + Unlines(StepLines(v + 1, ls[1..]))
  {
    var block, rest := BlockLines(v + 1, ls[0]), StepLines(v + 1, ls[1..]);
    Regroup(StepHead(v + 1, |ls[0].dels|, |ls[0].adds|), ls[0].dels, ls[0].adds, rest);
    UnlinesJoin(block, rest);
  }

  lemma RenderSplits(header: Bytes, p: Prepared)
    ensures Render(header, p) ==
      Unlines([header, BaseHead(p.start, |Listing(p.base)|)]) + Unlines(Listing(p.base))
        + Unlines(StepLines(p.start, ListAll(p.steps)))
  {
    var l, rest := Listing(p.base), StepLines(p.start, ListAll(p.steps));
    var top := [header, BaseHead(p.start, |l|)];
    assert [header] + BodyLines(p) == top + (l + rest);
    UnlinesJoin(top, l + rest);
    UnlinesJoin(l, rest);
  }

  // ---- parsing -----------------------------------------------------------------------------------------------

  /** The next `n` lines as a set without duplicates. */
  function Take(ls: seq<Bytes>, n: Bytes): (r: Result<(set<Bytes>, seq<Bytes>)>)
    ensures r.Ok? ==> |r.value.1| <= |ls|
  {
    match ParseUsize(n)
    case None => Err("bad count")
    case Some(n) =>
      if |ls| < n then Err("truncated artifact")
      else if |Members(ls[..n])| != n then Err("duplicate statements in the artifact")
      else Ok((Members(ls[..n]), ls[n..]))
  }

  /** One block: a base starts over, a step is appended to the base before it. */
  function Block(ls: seq<Bytes>, acc: Option<Prepared>): (r: Result<(Option<Prepared>, seq<Bytes>)>)
    requires ls != []
    ensures r.Ok? ==> |r.value.1| < |ls|
  {
    var w := Words(ls[0]);
    if |w| == 3 && w[0] == BASE then
      if w[1] == [] || w[1][0] != 118 || ParseUsize(w[1][1..]).None? then Err("bad base header")
      else
        var (base, rest) :- Take(ls[1..], w[2]);
        Ok((Some(Prepared(ParseUsize(w[1][1..]).value, base, [])), rest))
    else if |w| == 4 && w[0] == STEP then
      var (dels, rest) :- Take(ls[1..], w[2]);
      var (adds, rest') :- Take(rest, w[3]);
      if acc.None? then Err("step before base")
      else Ok((Some(acc.value.(steps := acc.value.steps + [Step(dels, adds)])), rest'))
    else Err("unexpected artifact line")
  }

  function Blocks(ls: seq<Bytes>, acc: Option<Prepared>): Result<Prepared>
    decreases |ls|
  {
    if ls == [] then
      if acc.None? then Err("artifact has no base")
      else if |acc.value.steps| != STEPS then Err("artifact does not hold the full window")
      else Ok(acc.value)
    else
      var (more, rest) :- Block(ls, acc);
      Blocks(rest, more)
  }

  /** The parser's loop over the lines after the header. */
  method ParseArtifact(bytes: Bytes) returns (r: Result<(Bytes, Prepared)>)
    ensures Lines(bytes) == [] ==> r.Err?
    ensures Lines(bytes) != [] ==>
      var b := Blocks(Lines(bytes)[1..], None);
      if b.Ok? then r == Ok((Lines(bytes)[0], b.value)) else r.Err?
  {
    var lines := Lines(bytes);
    if lines == [] { return Err("empty artifact"); }
    var rest, acc := lines[1..], None;
    while rest != []
      invariant Blocks(rest, acc) == Blocks(lines[1..], None)
      decreases |rest|
    {
      var block := Block(rest, acc);
      if block.Err? { return Err(block.reason); }
      acc, rest := block.value.0, block.value.1;
    }
    if acc.None? { return Err("artifact has no base"); }
    if |acc.value.steps| != STEPS { return Err("artifact does not hold the full window"); }
    return Ok((lines[0], acc.value));
  }

  // ---- the round trip ------------------------------------------------------------------------------------------

  function StripSet(s: set<Quad>): set<Bytes> { set x | x in s :: StripCr(x) }

  /** The statements of a set, each once, in some order. */
  predicate Lists(l: seq<Bytes>, s: set<Quad>) { Members(l) == s && |l| == |s| }

  predicate CrFree(s: set<Quad>) { forall x :: x in s ==> !EndsInCr(x) }

  /** A longest statement ending in a carriage return, if there is one, is not its own image. */
  lemma {:induction false} LongestEnding(s: set<Quad>) returns (x: Quad)
    requires !CrFree(s)
    ensures x in s && EndsInCr(x) && forall y :: y in s && EndsInCr(y) ==> |y| <= |x|
  {
    x :| x in s && EndsInCr(x);
    var rest := s - {x};
    if !CrFree(rest) {
      var y := LongestEnding(rest);
      if |y| > |x| { x := y; }
    }
    forall z | z in s && EndsInCr(z) ensures |z| <= |x| { assert z in rest || z == x || z in s - rest; }
  }

  /** Dropping one trailing carriage return from every member leaves a set as it was exactly when no
      member ends in one. */
  lemma StripFixesExactly(s: set<Quad>)
    ensures StripSet(s) == s <==> CrFree(s)
  {
    if CrFree(s) {
      forall x ensures x in StripSet(s) <==> x in s {
        if x in s { assert StripCr(x) in StripSet(s); }
      }
    } else {
      var x := LongestEnding(s);
      forall y | y in s ensures StripCr(y) != x {
        assert EndsInCr(y) ==> |StripCr(y)| == |y| - 1 < |x|;
      }
      assert x !in StripSet(s);
    }
  }

  lemma StrippedMembers(l: seq<Bytes>, s: set<Quad>)
    requires Lists(l, s)
    ensures Members(Stripped(l)) == StripSet(s)
  {
    forall x ensures x in Members(Stripped(l)) <==> x in StripSet(s) {
      if x in Members(Stripped(l)) {
        var i :| 0 <= i < |l| && Stripped(l)[i] == x;
        assert l[i] in Members(l);
      }
      if x in StripSet(s) {
        var y :| y in s && StripCr(y) == x;
        assert y in Members(l);
        var i :| 0 <= i < |l| && l[i] == y;
        assert Stripped(l)[i] == x;
      }
    }
  }

  predicate Kept(s: set<Quad>) { |StripSet(s)| == |s| }

  lemma TakesListing(l: seq<Bytes>, s: set<Quad>, rest: seq<Bytes>)
    requires Lists(l, s) && |s| < USIZE_LIMIT
    ensures
      var r := Take(Stripped(l) + rest, DigitsOf(|l|));
      if Kept(s) then r == Ok((StripSet(s), rest)) else r.Err?
  {
    ParsesDigits(|s|);
    StrippedMembers(l, s);
    var t := Stripped(l);
    assert (t + rest)[..|s|] == t && (t + rest)[|s|..] == rest;
  }

  lemma StrippedJoin(a: seq<Bytes>, b: seq<Bytes>)
    ensures Stripped(a + b) == Stripped(a) + Stripped(b)
  {
  }

  /** A line that ends in a digit keeps its last byte. */
  lemma EndsInDigit(x: Bytes, n: nat)
    ensures StripCr(x + DigitsOf(n)) == x + DigitsOf(n) && (LF !in x ==> LF !in x + DigitsOf(n))
  {
    DigitsRoundTrip(n);
    var t := x + DigitsOf(n);
    assert t[|t| - 1] == DigitsOf(n)[|DigitsOf(n)| - 1];
  }

  lemma ThreeWords(a: Bytes, b: Bytes, c: Bytes)
    requires SPACE !in a && SPACE !in b && SPACE !in c
    ensures Words(a + [SPACE] + (b + [SPACE] + c)) == [a, b, c]
  {
    WordsStep(a, b + [SPACE] + c);
    WordsStep(b, c);
  }

  lemma FourWords(a: Bytes, b: Bytes, c: Bytes, d: Bytes)
    requires SPACE !in a && SPACE !in b && SPACE !in c && SPACE !in d
    ensures Words(a + [SPACE] + (b + [SPACE] + (c + [SPACE] + d))) == [a, b, c, d]
  {
    WordsStep(a, b + [SPACE] + (c + [SPACE] + d));
    ThreeWords(b, c, d);
  }

  lemma DigitsArePlain(n: nat)
    ensures SPACE !in DigitsOf(n) && LF !in DigitsOf(n)
  {
    DigitsRoundTrip(n);
  }

  lemma StepHeadWords(v: nat, d: nat, a: nat)
    ensures Words(StepHead(v, d, a)) == [STEP, [118] + DigitsOf(v), DigitsOf(d), DigitsOf(a)]
  {
    DigitsArePlain(v);
    DigitsArePlain(d);
    DigitsArePlain(a);
    FourWords(STEP, [118] + DigitsOf(v), DigitsOf(d), DigitsOf(a));
  }

  lemma BaseHeadWords(start: nat, n: nat)
    ensures Words(BaseHead(start, n)) == [BASE, [118] + DigitsOf(start), DigitsOf(n)]
  {
    DigitsArePlain(start);
    DigitsArePlain(n);
    ThreeWords(BASE, [118] + DigitsOf(start), DigitsOf(n));
  }

  /** Heads survive line splitting unchanged. */
  lemma HeadsArePlain(v: nat, d: nat, a: nat)
    ensures LF !in StepHead(v, d, a) && StripCr(StepHead(v, d, a)) == StepHead(v, d, a)
    ensures LF !in BaseHead(v, d) && StripCr(BaseHead(v, d)) == BaseHead(v, d)
  {
    DigitsArePlain(v);
    DigitsArePlain(d);
    var x := STEP + [SPACE] + (([118] + DigitsOf(v)) + [SPACE] + (DigitsOf(d) + [SPACE]));
    assert StepHead(v, d, a) == x + DigitsOf(a);
    EndsInDigit(x, a);
    var y := BASE + [SPACE] + (([118] + DigitsOf(v)) + [SPACE]);
    assert BaseHead(v, d) == y + DigitsOf(d);
    EndsInDigit(y, d);
  }

  // ---- the parser on printed lines ---------------------------------------------------------------------------------

  predicate StepSized(s: Step) { |s.dels| < USIZE_LIMIT && |s.adds| < USIZE_LIMIT }

  predicate Sized(p: Prepared) {
    p.start < USIZE_LIMIT && |p.base| < USIZE_LIMIT && forall i :: 0 <= i < |p.steps| ==> StepSized(p.steps[i])
  }

  function StripStep(s: Step): Step { Step(StripSet(s.dels), StripSet(s.adds)) }

  predicate StepKept(s: Step) { Kept(s.dels) && Kept(s.adds) }

  predicate ListsStep(l: Listed, s: Step) { StepSized(s) && Lists(l.dels, s.dels) && Lists(l.adds, s.adds) }

  predicate ListsSteps(ls: seq<Listed>, steps: seq<Step>) {
    |ls| == |steps| && forall i :: 0 <= i < |ls| ==> ListsStep(ls[i], steps[i])
  }

  lemma BlockShape(head: Bytes, d: seq<Bytes>, a: seq<Bytes>, rest: seq<Bytes>)
    requires StripCr(head) == head
    ensures Stripped([head] + (d + (a + rest))) == [head] + (Stripped(d) + (Stripped(a) + Stripped(rest)))
  {
    StrippedJoin([head], d + (a + rest));
    StrippedJoin(d, a + rest);
    StrippedJoin(a, rest);
    assert Stripped([head]) == [head];
  }

  lemma StepBlock(l: Listed, s: Step, v: nat, rest: seq<Bytes>, acc: Prepared)
    requires ListsStep(l, s)
    ensures
      var ls := [StepHead(v, |l.dels|, |l.adds|)] + (Stripped(l.dels) + (Stripped(l.adds) + rest));
      var r := Block(ls, Some(acc));
      if StepKept(s) then r == Ok((Some(acc.(steps := acc.steps + [StripStep(s)])), rest)) else r.Err?
  {
    var head := StepHead(v, |l.dels|, |l.adds|);
    var ls := [head] + (Stripped(l.dels) + (Stripped(l.adds) + rest));
    StepHeadWords(v, |l.dels|, |l.adds|);
    TakesListing(l.dels, s.dels, Stripped(l.adds) + rest);
    TakesListing(l.adds, s.adds, rest);
    assert ls[0] == head && ls[1..] == Stripped(l.dels) + (Stripped(l.adds) + rest);
    StepBlockWords(ls, acc, Words(head));
  }

  /** A step block, in terms of its head's words. */
  lemma StepBlockWords(ls: seq<Bytes>, acc: Prepared, w: seq<Bytes>)
    requires ls != [] && w == Words(ls[0]) && |w| == 4 && w[0] == STEP
    ensures
      var r, d := Block(ls, Some(acc)), Take(ls[1..], w[2]);
      && (d.Err? ==> r.Err?)
      && (d.Ok? ==>
          var a := Take(d.value.1, w[3]);
          if a.Ok? then r == Ok((Some(acc.(steps := acc.steps + [Step(d.value.0, a.value.0)])), a.value.1)) else r.Err?)
  {
  }

  lemma BlocksStep(ls: seq<Bytes>, acc: Option<Prepared>)
    requires ls != []
    ensures
      var b := Block(ls, acc);
      if b.Ok? then Blocks(ls, acc) == Blocks(b.value.1, b.value.0) else Blocks(ls, acc).Err?
  {
  }

  function StripSteps(steps: seq<Step>): seq<Step> {
    if steps == [] then [] else [StripStep(steps[0])] + StripSteps(steps[1..])
  }

  predicate StepsKept(steps: seq<Step>) {
    steps == [] || (StepKept(steps[0]) && StepsKept(steps[1..]))
  }

  /** What the parser makes of the lines of the first step. */
  lemma FirstStep(v: nat, ls: seq<Listed>, s: Step, acc: Prepared)
    requires ls != [] && ListsStep(ls[0], s)
    ensures
      var r := Blocks(Stripped(StepLines(v, ls)), Some(acc));
      if StepKept(s) then
        r == Blocks(Stripped(StepLines(v + 1, ls[1..])), Some(acc.(steps := acc.steps + [StripStep(s)])))
      else r.Err?
  {
    var l, rest := ls[0], StepLines(v + 1, ls[1..]);
    var head := StepHead(v + 1, |l.dels|, |l.adds|);
    HeadsArePlain(v + 1, |l.dels|, |l.adds|);
    BlockShape(head, l.dels, l.adds, rest);
    StepBlock(l, s, v + 1, Stripped(rest), acc);
    BlocksStep([head] + (Stripped(l.dels) + (Stripped(l.adds) + Stripped(rest))), Some(acc));
  }

  /** The parser's answer on printed steps. */
  predicate Answers(r: Result<Prepared>, acc: Prepared, steps: seq<Step>) {
    if StepsKept(steps) then r == Ok(acc.(steps := acc.steps + StripSteps(steps))) else r.Err?
  }

  lemma AnswersStep(r: Result<Prepared>, acc: Prepared, steps: seq<Step>)
    requires steps != []
    requires
      if StepKept(steps[0]) then Answers(r, acc.(steps := acc.steps + [StripStep(steps[0])]), steps[1..]) else r.Err?
    ensures Answers(r, acc, steps)
  {
    assert acc.steps + StripSteps(steps) == (acc.steps + [StripStep(steps[0])]) + StripSteps(steps[1..]);
  }

  lemma AnswersEnd(acc: Prepared)
    requires |acc.steps| == STEPS
    ensures Answers(Blocks([], Some(acc)), acc, [])
  {
    assert acc.steps + [] == acc.steps;
  }

  lemma {:induction false} StepsParse(v: nat, ls: seq<Listed>, steps: seq<Step>, acc: Prepared)
    requires ListsSteps(ls, steps) && |acc.steps| + |steps| == STEPS
    ensures Answers(Blocks(Stripped(StepLines(v, ls)), Some(acc)), acc, steps)
    decreases |ls|
  {
    var r := Blocks(Stripped(StepLines(v, ls)), Some(acc));
    if ls == [] {
      assert steps == [] && Stripped(StepLines(v, ls)) == [];
      AnswersEnd(acc);
    } else {
      FirstStep(v, ls, steps[0], acc);
      if StepKept(steps[0]) {
        StepsParse(v + 1, ls[1..], steps[1..], acc.(steps := acc.steps + [StripStep(steps[0])]));
      }
      AnswersStep(r, acc, steps);
    }
  }

  lemma BaseBlock(start: nat, l: seq<Bytes>, base: set<Quad>, rest: seq<Bytes>)
    requires start < USIZE_LIMIT && Lists(l, base) && |base| < USIZE_LIMIT
    ensures
      var r := Block([BaseHead(start, |l|)] + (Stripped(l) + rest), None);
      if Kept(base) then r == Ok((Some(Prepared(start, StripSet(base), [])), rest)) else r.Err?
  {
    var head := BaseHead(start, |l|);
    var ls := [head] + (Stripped(l) + rest);
    BaseHeadWords(start, |l|);
    ParsesDigits(start);
    TakesListing(l, base, rest);
    assert ls[0] == head && ls[1..] == Stripped(l) + rest;
    assert ([118] + DigitsOf(start))[1..] == DigitsOf(start);
    BaseBlockWords(ls, Words(head));
  }

  lemma BaseBlockWords(ls: seq<Bytes>, w: seq<Bytes>)
    requires ls != [] && w == Words(ls[0]) && |w| == 3 && w[0] == BASE && w[1] != [] && w[1][0] == 118
      && ParseUsize(w[1][1..]).Some?
    ensures
      var r, b := Block(ls, None), Take(ls[1..], w[2]);
      if b.Ok? then r == Ok((Some(Prepared(ParseUsize(w[1][1..]).value, b.value.0, [])), b.value.1)) else r.Err?
  {
  }

  lemma ListAllLists(steps: seq<Step>)
    requires forall i :: 0 <= i < |steps| ==> StepSized(steps[i])
    ensures ListsSteps(ListAll(steps), steps)
  {
    forall i | 0 <= i < |steps| ensures ListsStep(ListAll(steps)[i], steps[i]) {
      ListingIsSorted(steps[i].dels);
      ListingIsSorted(steps[i].adds);
    }
  }

  lemma BodyParses(p: Prepared, l: seq<Bytes>, ls: seq<Listed>)
    requires Sized(p) && |p.steps| == STEPS && Lists(l, p.base) && ListsSteps(ls, p.steps)
    ensures
      var r := Blocks(Stripped([BaseHead(p.start, |l|)] + (l + StepLines(p.start, ls))), None);
      if Kept(p.base) then Answers(r, Prepared(p.start, StripSet(p.base), []), p.steps) else r.Err?
  {
    var head, rest := BaseHead(p.start, |l|), StepLines(p.start, ls);
    HeadsArePlain(p.start, |l|, 0);
    StrippedJoin([head], l + rest);
    StrippedJoin(l, rest);
    assert Stripped([head]) == [head];
    BaseBlock(p.start, l, p.base, Stripped(rest));
    BlocksStep([head] + (Stripped(l) + Stripped(rest)), None);
    StepsParse(p.start, ls, p.steps, Prepared(p.start, StripSet(p.base), []));
  }

  predicate StepCrFree(s: Step) { CrFree(s.dels) && CrFree(s.adds) }

  predicate AllCrFree(p: Prepared) {
    CrFree(p.base) && forall i :: 0 <= i < |p.steps| ==> StepCrFree(p.steps[i])
  }

  lemma StepFixedExactly(s: Step)
    ensures StepKept(s) && StripStep(s) == s <==> StepCrFree(s)
  {
    StripFixesExactly(s.dels);
    StripFixesExactly(s.adds);
  }

  lemma {:induction false} StepsFixedExactly(steps: seq<Step>)
    ensures StepsKept(steps) && StripSteps(steps) == steps <==> forall i :: 0 <= i < |steps| ==> StepCrFree(steps[i])
  {
    if steps != [] {
      StepFixedExactly(steps[0]);
      StepsFixedExactly(steps[1..]);
      assert steps == [steps[0]] + steps[1..];
      assert forall i :: 0 < i < |steps| ==> steps[i] == steps[1..][i - 1];
      assert forall i :: 0 <= i < |steps[1..]| ==> steps[1..][i] == steps[i + 1];
      assert StripSteps(steps)[1..] == StripSteps(steps[1..]);
    }
  }

  predicate FeedFreeSet(s: set<Quad>) { forall x :: x in s ==> LF !in x }

  predicate AllFeedFree(p: Prepared) {
    FeedFreeSet(p.base) && forall i :: 0 <= i < |p.steps| ==>
      FeedFreeSet(p.steps[i].dels) && FeedFreeSet(p.steps[i].adds)
  }

  lemma ListingFeedFree(s: set<Quad>)
    requires FeedFreeSet(s)
    ensures FeedFree(Listing(s))
  {
    var l := Listing(s);
    forall i | 0 <= i < |l| ensures LF !in l[i] { assert l[i] in Members(l); }
  }

  lemma {:induction false} StepLinesFeedFree(v: nat, ls: seq<Listed>)
    requires forall i :: 0 <= i < |ls| ==> FeedFree(ls[i].dels) && FeedFree(ls[i].adds)
    ensures FeedFree(StepLines(v, ls))
    decreases |ls|
  {
    if ls != [] {
      HeadsArePlain(v + 1, |ls[0].dels|, |ls[0].adds|);
      StepLinesFeedFree(v + 1, ls[1..]);
      FeedFreeJoin(ls[0].adds, StepLines(v + 1, ls[1..]));
      FeedFreeJoin(ls[0].dels, ls[0].adds + StepLines(v + 1, ls[1..]));
      FeedFreeJoin([StepHead(v + 1, |ls[0].dels|, |ls[0].adds|)],
                   ls[0].dels + (ls[0].adds + StepLines(v + 1, ls[1..])));
    }
  }

  lemma FeedFreeJoin(a: seq<Bytes>, b: seq<Bytes>)
    requires FeedFree(a) && FeedFree(b)
    ensures FeedFree(a + b)
  {
  }

  lemma BodyFeedFree(p: Prepared)
    requires AllFeedFree(p)
    ensures FeedFree(BodyLines(p))
  {
    ListingFeedFree(p.base);
    var ls := ListAll(p.steps);
    forall i | 0 <= i < |ls| ensures FeedFree(ls[i].dels) && FeedFree(ls[i].adds) {
      ListingFeedFree(p.steps[i].dels);
      ListingFeedFree(p.steps[i].adds);
    }
    StepLinesFeedFree(p.start, ls);
    HeadsArePlain(p.start, |Listing(p.base)|, 0);
    FeedFreeJoin(Listing(p.base), StepLines(p.start, ls));
    FeedFreeJoin([BaseHead(p.start, |Listing(p.base)|)], Listing(p.base) + StepLines(p.start, ls));
  }

  lemma BodyRoundTripsExactly(p: Prepared, r: Result<Prepared>)
    requires if Kept(p.base) then Answers(r, Prepared(p.start, StripSet(p.base), []), p.steps) else r.Err?
    ensures r == Ok(p) <==> AllCrFree(p)
  {
    StripFixesExactly(p.base);
    StepsFixedExactly(p.steps);
    assert [] + StripSteps(p.steps) == StripSteps(p.steps);
  }

  /** For every window of statements without line feeds, whatever else they look like, parsing the
      printed artifact gives the window back exactly when no statement ends in a carriage return. */
  lemma RoundTripsExactlyWithoutTrailingCr(header: Bytes, p: Prepared)
    requires LF !in header && !EndsInCr(header)
    requires Sized(p) && |p.steps| == STEPS && AllFeedFree(p)
    ensures Lines(Render(header, p)) != [] && Lines(Render(header, p))[0] == header
    ensures Blocks(Lines(Render(header, p))[1..], None) == Ok(p) <==> AllCrFree(p)
  {
    BodyFeedFree(p);
    FeedFreeJoin([header], BodyLines(p));
    LinesOfUnlines([header] + BodyLines(p));
    StrippedJoin([header], BodyLines(p));
    assert Stripped([header]) == [header];
    assert Lines(Render(header, p))[1..] == Stripped(BodyLines(p));
    ListingIsSorted(p.base);
    ListAllLists(p.steps);
    BodyParses(p, Listing(p.base), ListAll(p.steps));
    BodyRoundTripsExactly(p, Blocks(Stripped(BodyLines(p)), None));
  }

  /** The smallest failing window: one statement, ending in a carriage return. It is one of the
      type's values, not of the extraction's, whose statements all end in a full stop. */
  lemma ATrailingCrIsLost(header: Bytes)
    requires LF !in header && !EndsInCr(header)
    ensures
      var p := Prepared(0, {[65, CR]}, seq(STEPS, i => Step({}, {})));
      Blocks(Lines(Render(header, p))[1..], None) != Ok(p)
  {
    var p := Prepared(0, {[65, CR]}, seq(STEPS, i => Step({}, {})));
    RoundTripsExactlyWithoutTrailingCr(header, p);
    assert [65, CR] in p.base && EndsInCr([65, CR]);
  }
}
