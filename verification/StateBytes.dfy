/** The `sculpin-rdf-state/v1` bytes of a dataset file: a header, then every non-empty line once, in
    bytewise order, each ended by a line feed. */
module StateBytes {
  import opened Wire
  import opened Text
  import opened Offsets

  const HEADER := Ascii("sculpin-rdf-state/v1\n")

  /** A file's lines: split at every line feed, so the last one may be empty. */
  function Split(t: Bytes): seq<Bytes> {
    if LF in t then [t[..IndexOf(t, LF)]] + Split(t[IndexOf(t, LF) + 1..]) else [t]
  }

  function NonEmpty(lines: seq<Bytes>): seq<Bytes> {
    if lines == [] then [] else (if lines[0] == [] then [] else [lines[0]]) + NonEmpty(lines[1..])
  }

  function CanonicalBytes(lines: seq<Bytes>): Bytes {
    HEADER + Unlines(SortUnique(NonEmpty(lines)))
  }

  /** The dataset a file holds. */
  function Dataset(t: Bytes): set<Bytes> { Members(Split(t)) - {[]} }

  lemma {:induction false} SplitIsFeedFree(t: Bytes)
    ensures FeedFree(Split(t))
  {
    if LF in t { SplitIsFeedFree(t[IndexOf(t, LF) + 1..]); }
  }

  lemma {:induction false} SplitFirst(t: Bytes, x: Bytes, rest: Bytes)
    requires LF !in x && t == x + [LF] + rest
    ensures Members(Split(t)) == {x} + Members(Split(rest))
  {
    IndexAfter(x, LF, rest);
    assert Split(t) == [x] + Split(rest);
  }

  lemma {:induction false} SplitUnlines(ls: seq<Bytes>, t: Bytes)
    requires FeedFree(ls) && t == Unlines(ls)
    ensures Members(Split(t)) == Members(ls) + {[]}
  {
    if ls == [] {
      assert Split(t) == [t];
    } else {
      var rest := Unlines(ls[1..]);
      SplitFirst(t, ls[0], rest);
      SplitUnlines(ls[1..], rest);
      assert Members(ls) == {ls[0]} + Members(ls[1..]);
    }
  }

  lemma {:induction false} NonEmptyMembers(lines: seq<Bytes>)
    ensures Members(NonEmpty(lines)) == Members(lines) - {[]}
  {
    if lines != [] {
      NonEmptyMembers(lines[1..]);
      assert Members(lines) == {lines[0]} + Members(lines[1..]);
      var first := if lines[0] == [] then [] else [lines[0]];
      assert Members(NonEmpty(lines)) == Members(first) + Members(NonEmpty(lines[1..]));
    }
  }

  lemma SortedIsFeedFree(lines: seq<Bytes>)
    requires FeedFree(lines)
    ensures FeedFree(SortUnique(NonEmpty(lines)))
  {
    SortUniqueSorts(NonEmpty(lines));
    NonEmptyMembers(lines);
    var x := SortUnique(NonEmpty(lines));
    forall i | 0 <= i < |x| ensures LF !in x[i] {
      assert x[i] in Members(x);
      assert x[i] in Members(lines);
    }
  }

  /** The bytes after the header are themselves a file, and it holds the same dataset. */
  lemma BodyHoldsTheDataset(t: Bytes)
    ensures CanonicalBytes(Split(t))[..|HEADER|] == HEADER
    ensures Dataset(CanonicalBytes(Split(t))[|HEADER|..]) == Dataset(t)
  {
    SplitIsFeedFree(t);
    SortedIsFeedFree(Split(t));
    var x := SortUnique(NonEmpty(Split(t)));
    SplitUnlines(x, Unlines(x));
    SortUniqueSorts(NonEmpty(Split(t)));
    NonEmptyMembers(Split(t));
    assert CanonicalBytes(Split(t))[|HEADER|..] == Unlines(x);
  }

  /** Two files have the same canonical bytes exactly when they hold the same dataset. */
  lemma SameBytesExactlyWhenSameDataset(a: Bytes, b: Bytes)
    ensures CanonicalBytes(Split(a)) == CanonicalBytes(Split(b)) <==> Dataset(a) == Dataset(b)
  {
    BodyHoldsTheDataset(a);
    BodyHoldsTheDataset(b);
    NonEmptyMembers(Split(a));
    NonEmptyMembers(Split(b));
    SortUniqueIsTheSet(NonEmpty(Split(a)), NonEmpty(Split(b)));
  }

  // ---- the documented bytes ---------------------------------------------------------------------

  /** `x` is the part of a file between one line end, or the start, and the next, or the end. */
  predicate LineAt(t: Bytes, i: nat, x: Bytes) {
    && i + |x| <= |t| && t[i..i + |x|] == x && LF !in x
    && (i == 0 || t[i - 1] == LF) && (i + |x| == |t| || t[i + |x|] == LF)
  }

  predicate HasLine(t: Bytes, x: Bytes) { exists i: nat :: i <= |t| && LineAt(t, i, x) }

  lemma FirstLine(t: Bytes, k: nat, x: Bytes)
    requires k < |t| && t[k] == LF && LF !in t[..k]
    ensures LineAt(t, 0, x) <==> x == t[..k]
  {
    assert forall i :: 0 <= i < k ==> t[i] == t[..k][i];
    assert LineAt(t, 0, x) ==> forall i :: 0 <= i < |x| ==> t[0..|x|][i] == t[i];
  }

  lemma LaterLine(t: Bytes, k: nat, i: nat, x: Bytes)
    requires k < |t| && t[k] == LF && k < i <= |t|
    ensures LineAt(t, i, x) <==> LineAt(t[k + 1..], i - k - 1, x)
  {
    var rest := t[k + 1..];
    if i + |x| <= |t| { assert rest[i - k - 1..i - k - 1 + |x|] == t[i..i + |x|]; }
  }

  lemma NoLineWithin(t: Bytes, k: nat, i: nat, x: Bytes)
    requires k < |t| && LF !in t[..k] && 0 < i <= k
    ensures !LineAt(t, i, x)
  {
    assert t[i - 1] == t[..k][i - 1];
  }

  lemma LinesOfTheRest(t: Bytes, k: nat, x: Bytes)
    requires k < |t| && t[k] == LF && LF !in t[..k]
    ensures HasLine(t, x) <==> x == t[..k] || HasLine(t[k + 1..], x)
  {
    FirstLine(t, k, x);
    if HasLine(t, x) {
      var i: nat :| i <= |t| && LineAt(t, i, x);
      if 0 < i <= k {
        NoLineWithin(t, k, i, x);
      } else if i > k {
        LaterLine(t, k, i, x);
        assert HasLine(t[k + 1..], x);
      }
    }
    if HasLine(t[k + 1..], x) {
      var i: nat :| i <= |t[k + 1..]| && LineAt(t[k + 1..], i, x);
      LaterLine(t, k, i + k + 1, x);
    }
  }

  /** Splitting at line feeds gives exactly the lines of the file. */
  lemma {:induction false} SplitIsTheLines(t: Bytes, x: Bytes)
    ensures x in Members(Split(t)) <==> HasLine(t, x)
  {
    if LF in t {
      var k := IndexOf(t, LF);
      SplitIsTheLines(t[k + 1..], x);
      LinesOfTheRest(t, k, x);
      assert Split(t) == [t[..k]] + Split(t[k + 1..]);
    } else {
      if HasLine(t, x) {
        var i: nat :| i <= |t| && LineAt(t, i, x);
        assert x == t[0..|t|] == t;
      }
      if x == t { assert LineAt(t, 0, t); }
    }
  }

  /** The header, then each line with its line feed. */
  function Documented(lines: seq<Bytes>): seq<Item> {
    [Literal("sculpin-rdf-state/v1\n")] + LineItems(lines)
  }

  lemma HeaderIsSpelled(rest: seq<Item>)
    requires AllFit(rest)
    ensures
      var items := [Literal("sculpin-rdf-state/v1\n")] + rest;
      AllFit(items) && Joined(items) == HEADER + Joined(rest)
  {
    JoinedOne(Literal("sculpin-rdf-state/v1\n"), rest);
  }

  /** The canonical bytes of a file are the header and then, in bytewise order and each once, its
      non-empty lines with their line feeds; nothing else is. */
  lemma EncodesAsDocumented(t: Bytes, lines: seq<Bytes>, b: Bytes)
    requires Ascending(lines) && forall x :: x in Members(lines) <==> x != [] && HasLine(t, x)
    ensures LaidOut(b, 0, Documented(lines)) <==> b == CanonicalBytes(Split(t))
  {
    forall x ensures x in Members(Split(t)) <==> HasLine(t, x) { SplitIsTheLines(t, x); }
    NonEmptyMembers(Split(t));
    SortUniqueSorts(NonEmpty(Split(t)));
    assert Members(lines) == Members(NonEmpty(Split(t)));
    AscendingIsCanonical(lines, SortUnique(NonEmpty(Split(t))));
    LinesAreJoined(lines);
    HeaderIsSpelled(LineItems(lines));
    LaidOutExactly(b, Documented(lines));
  }
}
