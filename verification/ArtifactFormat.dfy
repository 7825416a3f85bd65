/** The prepared artifact as it is written down: what is printed at which place, and what a reader
    accepts, both stated independently of the printer and the parser. */
module ArtifactFormat {
  import opened Basics
  import opened Wire
  import T = Text
  import opened Offsets
  import opened Lineage
  import opened BearWorkload
  import opened Artifact

  // ---- the printed bytes ------------------------------------------------------------------------

  /** A number in decimal, without leading zeros. */
  function Decimal(n: nat): Item { Raw(T.DigitsOf(n)) }

  function BaseHeadItems(start: nat, n: nat): seq<Item> {
    [Literal("base v"), Decimal(start), Literal(" ")] + [Decimal(n)]
  }

  function StepHeadItems(v: nat, d: nat, a: nat): seq<Item> {
    [Literal("step v"), Decimal(v), Literal(" ")] + ([Decimal(d), Literal(" ")] + [Decimal(a)])
  }

  /** One block per step: its version, how many statements it deletes and adds, then those statements. */
  function StepItems(v: nat, steps: seq<Listed>): seq<Item>
    decreases |steps|
  {
    if steps == [] then []
    else
      StepHeadItems(v, |steps[0].dels|, |steps[0].adds|)
      + ([Tag(10)]
      + (LineItems(steps[0].dels)
      + (LineItems(steps[0].adds)
      + StepItems(v + 1, steps[1..]))))
  }

  /** The base version with its statements, and the steps to the versions after it. */
  function BodyItems(start: nat, base: seq<Bytes>, steps: seq<Listed>): seq<Item> {
    BaseHeadItems(start, |base|)
    + ([Tag(10)]
    + (LineItems(base)
    + StepItems(start + 1, steps)))
  }

  function Documented(header: Bytes, start: nat, base: seq<Bytes>, steps: seq<Listed>): seq<Item> {
    [Raw(header), Tag(10)] + BodyItems(start, base, steps)
  }

  /** The statements of a set in bytewise order, each once. */
  predicate InOrder(l: seq<Bytes>, s: set<Quad>) { Ascending(l) && Members(l) == s }

  predicate StepsInOrder(ls: seq<Listed>, steps: seq<Step>) {
    |ls| == |steps| && forall i :: 0 <= i < |ls| ==>
      InOrder(ls[i].dels, steps[i].dels) && InOrder(ls[i].adds, steps[i].adds)
  }

  lemma BaseHeadIsJoined(start: nat, n: nat)
    ensures AllFit(BaseHeadItems(start, n)) && Joined(BaseHeadItems(start, n)) == BaseHead(start, n)
  {
    var v, m := T.DigitsOf(start), T.DigitsOf(n);
    Last(Decimal(n));
    JoinedThree(Literal("base v"), Decimal(start), Literal(" "), [Decimal(n)]);
    assert Ascii("base v") == BASE + [SPACE] + [118] && Ascii(" ") == [SPACE];
    BaseRegroups(v, m);
  }

  lemma BaseRegroups(v: Bytes, m: Bytes)
    ensures (BASE + [SPACE] + [118]) + (v + ([SPACE] + m)) == BASE + [SPACE] + (([118] + v) + [SPACE] + m)
  {
  }

  lemma Last(i: Item)
    requires Fit(i)
    ensures AllFit([i]) && Joined([i]) == Written(i)
  {
    JoinedOne(i, []);
    assert [i] + [] == [i] && Written(i) + [] == Written(i);
  }

  lemma StepHeadIsJoined(v: nat, d: nat, a: nat)
    ensures AllFit(StepHeadItems(v, d, a)) && Joined(StepHeadItems(v, d, a)) == StepHead(v, d, a)
  {
    Last(Decimal(a));
    JoinedTwo(Decimal(d), Literal(" "), [Decimal(a)]);
    JoinedThree(Literal("step v"), Decimal(v), Literal(" "), [Decimal(d), Literal(" ")] + [Decimal(a)]);
    assert Ascii("step v") == STEP + [SPACE] + [118] && Ascii(" ") == [SPACE];
    StepRegroups(T.DigitsOf(v), T.DigitsOf(d), T.DigitsOf(a));
  }

  lemma StepRegroups(v: Bytes, d: Bytes, a: Bytes)
    ensures (STEP + [SPACE] + [118]) + (v + ([SPACE] + (d + ([SPACE] + a))))
      == STEP + [SPACE] + (([118] + v) + [SPACE] + (d + [SPACE] + a))
  {
    assert d + ([SPACE] + a) == d + [SPACE] + a;
    var x := d + [SPACE] + a;
    assert (STEP + [SPACE] + [118]) + (v + ([SPACE] + x)) == STEP + [SPACE] + (([118] + v) + [SPACE] + x);
  }

  /** A line of items, its line feed, and what follows. */
  lemma LineIsJoined(line: seq<Item>, x: Bytes, rest: seq<Item>)
    requires AllFit(line) && Joined(line) == x && AllFit(rest)
    ensures AllFit(line + ([Tag(10)] + rest)) && Joined(line + ([Tag(10)] + rest)) == x + [T.LF] + Joined(rest)
  {
    JoinedOne(Tag(10), rest);
    JoinedAppends(line, [Tag(10)] + rest);
    Associates(x, [T.LF], Joined(rest));
  }

  lemma LinesThen(ls: seq<Bytes>, rest: seq<Item>)
    requires AllFit(rest)
    ensures AllFit(LineItems(ls) + rest) && Joined(LineItems(ls) + rest) == T.Unlines(ls) + Joined(rest)
  {
    LinesAreJoined(ls);
    JoinedAppends(LineItems(ls), rest);
  }

  lemma FirstLine(x: Bytes, ls: seq<Bytes>)
    ensures T.Unlines([x] + ls) == x + [T.LF] + T.Unlines(ls)
  {
    assert ([x] + ls)[1..] == ls;
  }

  lemma {:induction false} StepsAreJoined(v: nat, ls: seq<Listed>)
    ensures AllFit(StepItems(v + 1, ls)) && Joined(StepItems(v + 1, ls)) == T.Unlines(StepLines(v, ls))
    decreases |ls|
  {
    if ls != [] {
      var d, a, more := ls[0].dels, ls[0].adds, StepItems(v + 2, ls[1..]);
      var head := StepHead(v + 1, |d|, |a|);
      StepsAreJoined(v + 1, ls[1..]);
      LinesThen(a, more);
      LinesThen(d, LineItems(a) + more);
      StepHeadIsJoined(v + 1, |d|, |a|);
      LineIsJoined(StepHeadItems(v + 1, |d|, |a|), head, LineItems(d) + (LineItems(a) + more));
      StepPrints(head, d, a, StepLines(v + 1, ls[1..]));
    }
  }

  lemma StepPrints(head: Bytes, d: seq<Bytes>, a: seq<Bytes>, rest: seq<Bytes>)
    ensures T.Unlines([head] + (d + (a + rest))) == head + [T.LF] + (T.Unlines(d) + (T.Unlines(a) + T.Unlines(rest)))
  {
    FirstLine(head, d + (a + rest));
    UnlinesJoin(d, a + rest);
    UnlinesJoin(a, rest);
  }

  lemma BodyIsJoined(start: nat, base: seq<Bytes>, ls: seq<Listed>)
    ensures AllFit(BodyItems(start, base, ls))
    ensures Joined(BodyItems(start, base, ls)) ==
      T.Unlines([BaseHead(start, |base|)] + (base + StepLines(start, ls)))
  {
    var head, items := BaseHead(start, |base|), StepItems(start + 1, ls);
    StepsAreJoined(start, ls);
    LinesThen(base, items);
    BaseHeadIsJoined(start, |base|);
    LineIsJoined(BaseHeadItems(start, |base|), head, LineItems(base) + items);
    FirstLine(head, base + StepLines(start, ls));
    UnlinesJoin(base, StepLines(start, ls));
  }

  lemma OrderIsListing(l: seq<Bytes>, s: set<Quad>)
    requires InOrder(l, s)
    ensures l == Listing(s)
  {
    ListingIsSorted(s);
    AscendingIsCanonical(l, Listing(s));
  }

  lemma OrdersAreListings(p: Prepared, ls: seq<Listed>)
    requires StepsInOrder(ls, p.steps)
    ensures ls == ListAll(p.steps)
  {
    forall i | 0 <= i < |ls| ensures ls[i] == ListAll(p.steps)[i] {
      OrderIsListing(ls[i].dels, p.steps[i].dels);
      OrderIsListing(ls[i].adds, p.steps[i].adds);
    }
  }

  lemma HeaderThen(header: Bytes, body: seq<Item>, lines: seq<Bytes>)
    requires AllFit(body) && Joined(body) == T.Unlines(lines)
    ensures
      AllFit([Raw(header), Tag(10)] + body) && Joined([Raw(header), Tag(10)] + body) == T.Unlines([header] + lines)
  {
    JoinedTwo(Raw(header), Tag(10), body);
    Associates(header, [T.LF], T.Unlines(lines));
    FirstLine(header, lines);
  }

  lemma ArtifactIsJoined(header: Bytes, start: nat, base: seq<Bytes>, ls: seq<Listed>)
    ensures AllFit(Documented(header, start, base, ls))
    ensures Joined(Documented(header, start, base, ls)) ==
      T.Unlines([header] + ([BaseHead(start, |base|)] + (base + StepLines(start, ls))))
  {
    BodyIsJoined(start, base, ls);
    HeaderThen(header, BodyItems(start, base, ls), [BaseHead(start, |base|)] + (base + StepLines(start, ls)));
  }

  /** What is printed is the documented artifact, every list in bytewise order, and nothing else is. */
  lemma PrintsAsDocumented(header: Bytes, p: Prepared, base: seq<Bytes>, ls: seq<Listed>, b: Bytes)
    requires InOrder(base, p.base) && StepsInOrder(ls, p.steps)
    ensures LaidOut(b, 0, Documented(header, p.start, base, ls)) <==> b == Render(header, p)
  {
    OrderIsListing(base, p.base);
    OrdersAreListings(p, ls);
    ArtifactIsJoined(header, p.start, base, ls);
    LaidOutExactly(b, Documented(header, p.start, base, ls));
  }

  // ---- what a reader accepts --------------------------------------------------------------------

  /** A block of an artifact: a version's statements, or a step's. */
  datatype Chunk = Base(start: nat, lines: seq<Bytes>) | Delta(dels: seq<Bytes>, adds: seq<Bytes>)

  /** A count or version: digits, perhaps after a plus sign, within 64 bits. */
  predicate Usize(x: Bytes, n: nat) {
    var d := if |x| > 0 && x[0] == '+' as int then x[1..] else x;
    d != [] && T.Digits(d) && T.Number(d) == n && n < USIZE_LIMIT
  }

  /** The words of a head line, separated by single spaces. */
  predicate SpellsOut(line: Bytes, words: seq<Bytes>)
    requires words != []
    decreases |words|
  {
    && SPACE !in words[0]
    && if |words| == 1 then line == words[0]
       else
         && |words[0]| < |line| && line[..|words[0]|] == words[0] && line[|words[0]|] == SPACE
         && SpellsOut(line[|words[0]| + 1..], words[1..])
  }

  /** The words of a block's head: `base v<start> <count>` or `step <any> <count> <count>`. */
  predicate IsHead(w: seq<Bytes>, c: Chunk) {
    match c
    case Base(start, lines) =>
      && |w| == 3 && w[0] == Ascii("base") && w[1] != [] && w[1][0] == 'v' as int
      && Usize(w[1][1..], start) && Usize(w[2], |lines|)
    case Delta(dels, adds) => |w| == 4 && w[0] == Ascii("step") && Usize(w[2], |dels|) && Usize(w[3], |adds|)
  }

  ghost predicate HeadOk(line: Bytes, c: Chunk) {
    exists w: seq<Bytes> :: w != [] && SpellsOut(line, w) && IsHead(w, c)
  }

  function Statements(c: Chunk): seq<Bytes> { if c.Base? then c.lines else c.dels + c.adds }

  predicate Once(ls: seq<Bytes>) { forall i, j :: 0 <= i < j < |ls| ==> ls[i] != ls[j] }

  /** No statement twice in one list. */
  predicate Proper(c: Chunk) { if c.Base? then Once(c.lines) else Once(c.dels) && Once(c.adds) }

  /** The block's statements, none twice in a list, follow its head. */
  predicate Follows(ls: seq<Bytes>, c: Chunk) {
    Proper(c) && |Statements(c)| < |ls| && ls[1..1 + |Statements(c)|] == Statements(c)
  }

  ghost predicate Begins(ls: seq<Bytes>, c: Chunk) { ls != [] && HeadOk(ls[0], c) && Follows(ls, c) }

  /** The window so far after one more block: a version starts over, a step needs a version. */
  function Then(acc: Option<Prepared>, c: Chunk): Option<Prepared> {
    match c
    case Base(start, lines) => Some(Prepared(start, Members(lines), []))
    case Delta(dels, adds) =>
      if acc.None? then None
      else Some(acc.value.(steps := acc.value.steps + [Step(Members(dels), Members(adds))]))
  }

  /** The lines are these blocks one after another, and they make this window of eleven steps. */
  ghost predicate Makes(ls: seq<Bytes>, chunks: seq<Chunk>, acc: Option<Prepared>, p: Prepared)
    decreases |chunks|
  {
    if chunks == [] then ls == [] && acc == Some(p) && |p.steps| == 11
    else
      && Begins(ls, chunks[0]) && Then(acc, chunks[0]).Some?
      && Makes(ls[1 + |Statements(chunks[0])|..], chunks[1..], Then(acc, chunks[0]), p)
  }

  // ---- and the parser accepts just that -----------------------------------------------------------

  lemma UsizeIsParsed(x: Bytes, n: nat)
    ensures ParseUsize(x) == Some(n) <==> Usize(x, n)
  {
  }

  lemma {:induction false} WordsAreSpelled(line: Bytes)
    ensures Words(line) != [] && SpellsOut(line, Words(line))
  {
    if SPACE in line {
      var k := T.IndexOf(line, SPACE);
      WordsAreSpelled(line[k + 1..]);
      assert Words(line)[0] == line[..k] && Words(line)[1..] == Words(line[k + 1..]);
    }
  }

  lemma {:induction false} SpelledAreWords(line: Bytes, words: seq<Bytes>)
    requires words != [] && SpellsOut(line, words)
    ensures Words(line) == words
    decreases |words|
  {
    if |words| == 1 {
      assert words == [words[0]];
    } else {
      var x, rest := words[0], line[|words[0]| + 1..];
      SpelledAreWords(rest, words[1..]);
      assert line == x + [SPACE] + rest;
      WordsStep(x, rest);
      assert words == [x] + words[1..];
    }
  }

  lemma OnceGrows(ls: seq<Bytes>, x: Bytes)
    ensures Once(ls + [x]) <==> Once(ls) && x !in ls
  {
    var all := ls + [x];
    assert all[|ls|] == x && forall i :: 0 <= i < |ls| ==> all[i] == ls[i];
  }

  lemma MembersGrow(ls: seq<Bytes>, x: Bytes)
    ensures |Members(ls + [x])| == |Members(ls)| + if x in ls then 0 else 1
  {
    assert Members(ls + [x]) == Members(ls) + {x};
    if x in ls { assert Members(ls) + {x} == Members(ls); }
  }

  lemma {:induction false} OnceCounts(ls: seq<Bytes>)
    ensures |Members(ls)| <= |ls| && (|Members(ls)| == |ls| <==> Once(ls))
  {
    if ls != [] {
      var n := |ls| - 1;
      OnceCounts(ls[..n]);
      assert ls == ls[..n] + [ls[n]];
      OnceGrows(ls[..n], ls[n]);
      MembersGrow(ls[..n], ls[n]);
    }
  }

  /** Taking a counted list: exactly the next lines, each once. */
  lemma TakesExactly(ls: seq<Bytes>, n: Bytes, xs: seq<Bytes>)
    requires Usize(n, |xs|) && |xs| <= |ls| && ls[..|xs|] == xs && Once(xs)
    ensures Take(ls, n) == Ok((Members(xs), ls[|xs|..]))
  {
    UsizeIsParsed(n, |xs|);
    OnceCounts(xs);
  }

  lemma Taken(ls: seq<Bytes>, n: Bytes) returns (xs: seq<Bytes>)
    requires Take(ls, n).Ok?
    ensures Usize(n, |xs|) && |xs| <= |ls| && ls[..|xs|] == xs && Once(xs)
    ensures Take(ls, n).value == (Members(xs), ls[|xs|..])
  {
    var m := ParseUsize(n).value;
    UsizeIsParsed(n, m);
    xs := ls[..m];
    OnceCounts(xs);
  }

  lemma HeadIs(line: Bytes, c: Chunk)
    ensures HeadOk(line, c) <==> IsHead(Words(line), c)
  {
    WordsAreSpelled(line);
    if HeadOk(line, c) {
      var w: seq<Bytes> :| w != [] && SpellsOut(line, w) && IsHead(w, c);
      SpelledAreWords(line, w);
    }
  }

  lemma BaseBegins(ls: seq<Bytes>, c: Chunk, acc: Option<Prepared>)
    requires c.Base? && ls != [] && IsHead(Words(ls[0]), c) && Follows(ls, c)
    ensures Block(ls, acc) == Ok((Then(acc, c), ls[1 + |Statements(c)|..]))
  {
    var w := Words(ls[0]);
    UsizeIsParsed(w[1][1..], c.start);
    assert ls[1..][..|c.lines|] == c.lines && ls[1..][|c.lines|..] == ls[1 + |c.lines|..];
    TakesExactly(ls[1..], w[2], c.lines);
  }

  lemma DeltaLists(ls: seq<Bytes>, dels: seq<Bytes>, adds: seq<Bytes>)
    requires |dels + adds| < |ls| && ls[1..1 + |dels + adds|] == dels + adds
    ensures ls[1..][..|dels|] == dels && ls[1..][|dels|..][..|adds|] == adds
    ensures ls[1..][|dels|..][|adds|..] == ls[1 + |dels + adds|..]
  {
    var n := |dels + adds|;
    assert ls[1..][..|dels|] == ls[1..1 + n][..|dels|];
    assert ls[1..][|dels|..][..|adds|] == ls[1..1 + n][|dels|..];
  }

  lemma DeltaTakes(ls: seq<Bytes>, c: Chunk, w: seq<Bytes>)
    requires c.Delta? && ls != [] && IsHead(w, c) && Follows(ls, c)
    ensures Take(ls[1..], w[2]) == Ok((Members(c.dels), ls[1..][|c.dels|..]))
    ensures Take(ls[1..][|c.dels|..], w[3]) == Ok((Members(c.adds), ls[1 + |Statements(c)|..]))
  {
    DeltaLists(ls, c.dels, c.adds);
    TakesExactly(ls[1..], w[2], c.dels);
    TakesExactly(ls[1..][|c.dels|..], w[3], c.adds);
  }

  lemma DeltaBegins(ls: seq<Bytes>, c: Chunk, acc: Option<Prepared>)
    requires c.Delta? && ls != [] && IsHead(Words(ls[0]), c) && Follows(ls, c) && acc.Some?
    ensures Block(ls, acc) == Ok((Then(acc, c), ls[1 + |Statements(c)|..]))
  {
    var w := Words(ls[0]);
    DeltaTakes(ls, c, w);
    StepBlockWords(ls, acc.value, w);
  }

  /** What a block that is read looks like, by its head's words. */
  lemma BlockLooks(ls: seq<Bytes>, acc: Option<Prepared>, w: seq<Bytes>)
    requires ls != [] && w == Words(ls[0]) && Block(ls, acc).Ok?
    ensures |w| == 3 || |w| == 4
    ensures |w| == 3 ==>
      && w[0] == Ascii("base") && w[1] != [] && w[1][0] == 118 && ParseUsize(w[1][1..]).Some? && Take(ls[1..], w[2]).Ok?
      && var b := Take(ls[1..], w[2]).value;
      && Block(ls, acc).value == (Some(Prepared(ParseUsize(w[1][1..]).value, b.0, [])), b.1)
    ensures |w| == 4 ==>
      && w[0] == Ascii("step") && acc.Some? && Take(ls[1..], w[2]).Ok? && Take(Take(ls[1..], w[2]).value.1, w[3]).Ok?
      && var d := Take(ls[1..], w[2]).value;
      && var a := Take(d.1, w[3]).value;
      && Block(ls, acc).value == (Some(acc.value.(steps := acc.value.steps + [Step(d.0, a.0)])), a.1)
  {
  }

  lemma LinesFollow(ls: seq<Bytes>, xs: seq<Bytes>)
    requires ls != [] && |xs| < |ls| && ls[1..][..|xs|] == xs
    ensures ls[1..1 + |xs|] == xs && ls[1..][|xs|..] == ls[1 + |xs|..]
  {
  }

  lemma BaseBlockBegins(ls: seq<Bytes>, acc: Option<Prepared>, w: seq<Bytes>) returns (c: Chunk)
    requires ls != [] && w == Words(ls[0]) && Block(ls, acc).Ok? && |w| == 3
    ensures IsHead(w, c) && Follows(ls, c) && Then(acc, c).Some?
    ensures Block(ls, acc).value == (Then(acc, c), ls[1 + |Statements(c)|..])
  {
    BlockLooks(ls, acc, w);
    var xs := Taken(ls[1..], w[2]);
    c := Base(ParseUsize(w[1][1..]).value, xs);
    UsizeIsParsed(w[1][1..], c.start);
    LinesFollow(ls, xs);
  }

  lemma DeltaBlockBegins(ls: seq<Bytes>, acc: Option<Prepared>, w: seq<Bytes>) returns (c: Chunk)
    requires ls != [] && w == Words(ls[0]) && Block(ls, acc).Ok? && |w| == 4
    ensures IsHead(w, c) && Follows(ls, c) && Then(acc, c).Some?
    ensures Block(ls, acc).value == (Then(acc, c), ls[1 + |Statements(c)|..])
  {
    BlockLooks(ls, acc, w);
    var dels := Taken(ls[1..], w[2]);
    var adds := Taken(ls[1..][|dels|..], w[3]);
    c := Delta(dels, adds);
    TwoLists(ls, dels, adds);
  }

  lemma BlockBegins(ls: seq<Bytes>, acc: Option<Prepared>) returns (c: Chunk)
    requires ls != [] && Block(ls, acc).Ok?
    ensures Begins(ls, c) && Then(acc, c).Some? && Block(ls, acc).value == (Then(acc, c), ls[1 + |Statements(c)|..])
  {
    var w := Words(ls[0]);
    BlockLooks(ls, acc, w);
    if |w| == 3 { c := BaseBlockBegins(ls, acc, w); } else { c := DeltaBlockBegins(ls, acc, w); }
    HeadIs(ls[0], c);
  }

  lemma TwoLists(ls: seq<Bytes>, dels: seq<Bytes>, adds: seq<Bytes>)
    requires ls != [] && |dels| < |ls| && ls[1..][..|dels|] == dels
    requires |adds| <= |ls[1..][|dels|..]| && ls[1..][|dels|..][..|adds|] == adds
    ensures
      var n := |dels + adds|;
      n < |ls| && ls[1..1 + n] == dels + adds && ls[1..][|dels|..][|adds|..] == ls[1 + n..]
  {
    var n := |dels + adds|;
    forall i | 0 <= i < n ensures ls[1..1 + n][i] == (dels + adds)[i] {
      if i < |dels| { assert ls[1..][..|dels|][i] == ls[1 + i]; }
      else { assert ls[1..][|dels|..][..|adds|][i - |dels|] == ls[1 + i]; }
    }
  }

  lemma {:induction false} MadeIsParsed(ls: seq<Bytes>, chunks: seq<Chunk>, acc: Option<Prepared>, p: Prepared)
    requires Makes(ls, chunks, acc, p)
    ensures Blocks(ls, acc) == Ok(p)
    decreases |chunks|
  {
    if chunks != [] {
      var c := chunks[0];
      HeadIs(ls[0], c);
      if c.Base? { BaseBegins(ls, c, acc); } else { DeltaBegins(ls, c, acc); }
      BlocksStep(ls, acc);
      MadeIsParsed(ls[1 + |Statements(c)|..], chunks[1..], Then(acc, c), p);
    }
  }

  lemma {:induction false} ParsedIsMade(ls: seq<Bytes>, acc: Option<Prepared>, p: Prepared) returns (chunks: seq<Chunk>)
    requires Blocks(ls, acc) == Ok(p)
    ensures Makes(ls, chunks, acc, p)
    decreases |ls|
  {
    if ls == [] {
      chunks := [];
    } else {
      BlocksStep(ls, acc);
      var c := BlockBegins(ls, acc);
      var more := ParsedIsMade(ls[1 + |Statements(c)|..], Then(acc, c), p);
      chunks := [c] + more;
      assert chunks[1..] == more;
    }
  }

  ghost predicate IsWindow(ls: seq<Bytes>, p: Prepared) { exists chunks :: Makes(ls, chunks, None, p) }

  /** The parser accepts exactly the lines that are blocks making a window of eleven steps, and returns
      that window. */
  lemma ParsesExactly(ls: seq<Bytes>, p: Prepared)
    ensures Blocks(ls, None) == Ok(p) <==> IsWindow(ls, p)
  {
    if IsWindow(ls, p) {
      var chunks :| Makes(ls, chunks, None, p);
      MadeIsParsed(ls, chunks, None, p);
    }
    if Blocks(ls, None) == Ok(p) { var chunks := ParsedIsMade(ls, None, p); }
  }
}
