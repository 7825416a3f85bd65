/** A minimal ustar reader over untrusted bytes (the ustar Interchange Format of the `pax` utility,
    IEEE Std 1003.1): a scan over 512-byte blocks that returns selected regular files. */
module Tar {
  import opened Basics
  import opened Wire
  import opened Text

  const BLOCK := 512
  const U64_LIMIT := 0x1_0000_0000_0000_0000

  // ---- fields -------------------------------------------------------------------------------------------

  /** The bytes before the first NUL. */
  function Upto(s: Bytes): Bytes {
    if s == [] || s[0] == 0 then [] else [s[0]] + Upto(s[1..])
  }

  predicate White(b: Byte) { 9 <= b <= 13 || b == 32 || b == 0x85 || b == 0xA0 }

  function TrimStart(s: Bytes): Bytes {
    if s != [] && White(s[0]) then TrimStart(s[1..]) else s
  }

  function TrimEnd(s: Bytes): Bytes {
    if s != [] && White(s[|s| - 1]) then TrimEnd(s[..|s| - 1]) else s
  }

  predicate Octals(s: Bytes) { forall i :: 0 <= i < |s| ==> 48 <= s[i] < 56 }

  function Value(s: Bytes): nat
    requires Octals(s)
  {
    if s == [] then 0 else Value(s[..|s| - 1]) * 8 + (s[|s| - 1] as int - 48)
  }

  /** A numeric field: NUL-terminated, trimmed, empty is zero, an optional plus sign, 64 bits. */
  function Octal(field: Bytes): Result<nat> {
    var s := TrimEnd(TrimStart(Upto(field)));
    if s == [] then Ok(0)
    else
      var d := if s[0] == 43 then s[1..] else s;
      if d != [] && Octals(d) && Value(d) < U64_LIMIT then Ok(Value(d)) else Err("bad octal field")
  }

  /** The header checksum: every byte, the checksum field itself read as spaces. */
  function Sum(h: Bytes, n: nat): nat
    requires n <= |h|
  {
    if n == 0 then 0 else Sum(h, n - 1) + if 148 <= n - 1 < 156 then 32 else h[n - 1] as int
  }

  datatype Head = Head(name: Bytes, size: nat, regular: bool)

  function ReadHead(h: Bytes): Result<Head>
    requires |h| == BLOCK
  {
    var stored :- Octal(h[148..156]);
    if Sum(h, BLOCK) != stored then Err("tar header checksum mismatch")
    else
      var name, prefix := Upto(h[..100]), Upto(h[345..500]);
      if !Utf8(name) then Err("non-UTF-8 tar name")
      else if !Utf8(prefix) then Err("non-UTF-8 tar prefix")
      else
        var size :- Octal(h[124..136]);
        if size + 511 >= U64_LIMIT then Err("tar size overflow")
        else Ok(Head(if prefix == [] then name else prefix + [47] + name, size, h[156] == 48 || h[156] == 0))
  }

  // ---- layouts --------------------------------------------------------------------------------------------

  /** An entry found: its header, and where its data starts. */
  datatype Entry = Entry(head: Head, start: nat)

  function Padded(size: nat): nat { (size + 511) / 512 * 512 }

  function NextAt(e: Entry): nat { e.start + Padded(e.head.size) }

  predicate EntryAt(tar: Bytes, at: nat, e: Entry) {
    && at + BLOCK <= |tar| && e.start == at + BLOCK && e.start + e.head.size <= |tar|
    && tar[at..at + BLOCK] != Zeros() && ReadHead(tar[at..at + BLOCK]) == Ok(e.head)
  }

  function Zeros(): Bytes { seq(BLOCK, i => 0) }

  /** Where the block after the entries lies. */
  function After(es: seq<Entry>): nat {
    if es == [] then 0 else NextAt(es[|es| - 1])
  }

  /** The entries follow one another from offset 0. */
  predicate Chain(tar: Bytes, es: seq<Entry>) {
    forall i {:trigger EntryAt(tar, After(es[..i]), es[i])} :: 0 <= i < |es| ==> EntryAt(tar, After(es[..i]), es[i])
  }

  /** A chain that ends in an all-zero block. */
  predicate Layout(tar: Bytes, es: seq<Entry>) {
    Chain(tar, es) && After(es) + BLOCK <= |tar| && tar[After(es)..After(es) + BLOCK] == Zeros()
  }

  // ---- what is returned --------------------------------------------------------------------------------------

  datatype Report = Report(selected: nat, ignored: nat, skipped: nat)
  datatype Policy = Policy(select: Bytes -> bool, entryCap: nat, totalCap: nat)

  predicate Wanted(p: Policy, e: Entry) { e.head.regular && p.select(e.head.name) }

  function Slice(tar: Bytes, e: Entry): Bytes
    requires e.start + e.head.size <= |tar|
  {
    tar[e.start..e.start + e.head.size]
  }

  function Files(tar: Bytes, es: seq<Entry>, p: Policy): map<Bytes, Bytes>
    requires Within(tar, es)
  {
    if es == [] then map[]
    else
      var e, before := es[|es| - 1], Files(tar, es[..|es| - 1], p);
      if Wanted(p, e) then before[e.head.name := Slice(tar, e)] else before
  }

  function Counts(es: seq<Entry>, p: Policy): Report {
    if es == [] then Report(0, 0, 0)
    else
      var e, r := es[|es| - 1], Counts(es[..|es| - 1], p);
      if Wanted(p, e) then r.(selected := r.selected + 1)
      else if e.head.regular then r.(ignored := r.ignored + 1)
      else r.(skipped := r.skipped + 1)
  }

  function Selected(es: seq<Entry>, p: Policy): nat {
    if es == [] then 0
    else Selected(es[..|es| - 1], p) + if Wanted(p, es[|es| - 1]) then es[|es| - 1].head.size else 0
  }

  predicate Taken(es: seq<Entry>, p: Policy, name: Bytes) {
    exists i :: 0 <= i < |es| && Wanted(p, es[i]) && es[i].head.name == name
  }

  predicate Distinct(es: seq<Entry>, p: Policy) {
    forall i, j :: 0 <= i < j < |es| && Wanted(p, es[i]) && Wanted(p, es[j]) ==> es[i].head.name != es[j].head.name
  }

  predicate Capped(es: seq<Entry>, p: Policy) {
    forall i :: 0 <= i < |es| && Wanted(p, es[i]) ==> es[i].head.size <= p.entryCap
  }

  /** Selected names are distinct, each selected entry and their total within the caps. */
  predicate Acceptable(es: seq<Entry>, p: Policy) {
    Distinct(es, p) && Capped(es, p) && Selected(es, p) <= p.totalCap
  }

  predicate Within(tar: Bytes, es: seq<Entry>) {
    forall i :: 0 <= i < |es| ==> es[i].start + es[i].head.size <= |tar|
  }

  // ---- the scan -------------------------------------------------------------------------------------------------

  lemma ChainGrows(tar: Bytes, es: seq<Entry>, e: Entry)
    requires Chain(tar, es) && EntryAt(tar, After(es), e)
    ensures Chain(tar, es + [e]) && After(es + [e]) == NextAt(e)
  {
    forall i | 0 <= i < |es + [e]| ensures EntryAt(tar, After((es + [e])[..i]), (es + [e])[i]) {
      if i < |es| {
        assert (es + [e])[..i] == es[..i];
        assert EntryAt(tar, After(es[..i]), es[i]);
      } else {
        assert (es + [e])[..i] == es;
      }
    }
  }

  lemma ChainFits(tar: Bytes, es: seq<Entry>)
    requires Chain(tar, es)
    ensures Within(tar, es)
  {
    forall i | 0 <= i < |es| ensures es[i].start + es[i].head.size <= |tar| {
      assert EntryAt(tar, After(es[..i]), es[i]);
    }
  }

  lemma {:induction false} FilesKeys(tar: Bytes, es: seq<Entry>, p: Policy, name: Bytes)
    requires Within(tar, es)
    ensures name in Files(tar, es, p) <==> Taken(es, p, name)
  {
    if es != [] {
      var n := |es| - 1;
      FilesKeys(tar, es[..n], p, name);
      TakenGrows(es[..n], es[n], p, name);
      assert es[..n] + [es[n]] == es;
    }
  }

  lemma TakenGrows(es: seq<Entry>, e: Entry, p: Policy, name: Bytes)
    ensures Taken(es + [e], p, name) <==> Taken(es, p, name) || (Wanted(p, e) && e.head.name == name)
  {
    var all := es + [e];
    if i :| 0 <= i < |es| && Wanted(p, es[i]) && es[i].head.name == name { assert all[i] == es[i]; }
    if Wanted(p, e) && e.head.name == name { assert all[|es|] == e; }
  }

  lemma DistinctGrows(es: seq<Entry>, e: Entry, p: Policy)
    ensures Distinct(es + [e], p) <==> Distinct(es, p) && (Wanted(p, e) ==> !Taken(es, p, e.head.name))
  {
    var all := es + [e];
    assert forall i :: 0 <= i < |es| ==> all[i] == es[i];
    if Distinct(all, p) && Wanted(p, e) {
      forall i | 0 <= i < |es| && Wanted(p, es[i]) ensures es[i].head.name != e.head.name {
        assert Wanted(p, all[i]) && Wanted(p, all[|es|]);
      }
    }
  }

  lemma CappedGrows(es: seq<Entry>, e: Entry, p: Policy)
    ensures Capped(es + [e], p) <==> Capped(es, p) && (Wanted(p, e) ==> e.head.size <= p.entryCap)
  {
    var all := es + [e];
    assert forall i :: 0 <= i < |es| ==> all[i] == es[i];
    assert all[|es|] == e;
  }

  /** One more entry keeps the selection acceptable exactly when it is not wanted, or is within the
      caps and new. */
  lemma AcceptableGrows(es: seq<Entry>, e: Entry, p: Policy)
    ensures Acceptable(es + [e], p) <==>
      && Acceptable(es, p)
      && (Wanted(p, e) ==>
            && e.head.size <= p.entryCap && Selected(es, p) + e.head.size <= p.totalCap
            && !Taken(es, p, e.head.name))
  {
    DistinctGrows(es, e, p);
    CappedGrows(es, e, p);
    SelectedGrows(es, e, p);
  }

  lemma SelectedGrows(es: seq<Entry>, e: Entry, p: Policy)
    ensures Selected(es + [e], p) == Selected(es, p) + if Wanted(p, e) then e.head.size else 0
  {
    assert (es + [e])[..|es|] == es;
  }

  /** The scan's results after the entries `es`. */
  predicate Results(tar: Bytes, p: Policy, es: seq<Entry>, out: map<Bytes, Bytes>, report: Report, total: nat) {
    && Within(tar, es) && Acceptable(es, p)
    && out == Files(tar, es, p) && report == Counts(es, p) && total == Selected(es, p)
  }

  /** One entry: skipped, ignored, or selected under the caps and the duplicate check. */
  method Visit(tar: Bytes, p: Policy, e: Entry, out: map<Bytes, Bytes>, report: Report, total: nat,
               ghost es: seq<Entry>)
    returns (r: Result<(map<Bytes, Bytes>, Report, nat)>)
    requires Results(tar, p, es, out, report, total) && e.start + e.head.size <= |tar|
    ensures r.Ok? <==> Acceptable(es + [e], p)
    ensures r.Ok? ==> Results(tar, p, es + [e], r.value.0, r.value.1, r.value.2)
  {
    AcceptableGrows(es, e, p);
    SelectedGrows(es, e, p);
    FilesKeys(tar, es, p, e.head.name);
    assert (es + [e])[..|es|] == es;
    if !e.head.regular { return Ok((out, report.(skipped := report.skipped + 1), total)); }
    if !p.select(e.head.name) { return Ok((out, report.(ignored := report.ignored + 1), total)); }
    if e.head.size > p.entryCap { return Err("tar entry exceeds the cap"); }
    if total + e.head.size > p.totalCap { return Err("selected tar entries exceed the cap"); }
    if e.head.name in out { return Err("duplicate tar entry"); }
    return Ok((out[e.head.name := Slice(tar, e)], report.(selected := report.selected + 1), total + e.head.size));
  }

  lemma {:induction false} AcceptablePrefix(es: seq<Entry>, k: nat, p: Policy)
    requires Acceptable(es, p) && k <= |es|
    ensures Acceptable(es[..k], p)
    decreases |es| - k
  {
    if k == |es| {
      assert es[..k] == es;
    } else {
      AcceptablePrefix(es, k + 1, p);
      assert es[..k + 1] == es[..k] + [es[k]];
      AcceptableGrows(es[..k], es[k], p);
    }
  }

  /** The entry at an offset, if its header and extent are sound. */
  function Find(tar: Bytes, at: nat): (r: Result<Entry>)
    requires at + BLOCK <= |tar| && tar[at..at + BLOCK] != Zeros()
    ensures r.Ok? ==> EntryAt(tar, at, r.value)
    ensures forall e :: EntryAt(tar, at, e) ==> r == Ok(e)
  {
    var head :- ReadHead(tar[at..at + BLOCK]);
    if at + BLOCK + head.size > |tar| then Err("truncated tar entry") else Ok(Entry(head, at + BLOCK))
  }

  /** What is known when the input is an acceptable layout: the scan has found its first entries. */
  predicate OnTrack(tar: Bytes, p: Policy, want: seq<Entry>, es: seq<Entry>) {
    Layout(tar, want) && Acceptable(want, p) && |es| <= |want| && es == want[..|es|]
  }

  lemma TrackNext(tar: Bytes, p: Policy, want: seq<Entry>, es: seq<Entry>)
    requires OnTrack(tar, p, want, es)
    ensures After(es) + BLOCK <= |tar|
    ensures |es| < |want| ==>
      && EntryAt(tar, After(es), want[|es|]) && Acceptable(es + [want[|es|]], p)
      && OnTrack(tar, p, want, es + [want[|es|]])
    ensures |es| == |want| ==> es == want && tar[After(es)..After(es) + BLOCK] == Zeros()
  {
    if |es| < |want| {
      assert EntryAt(tar, After(want[..|es|]), want[|es|]);
      NextIsAcceptable(p, want, es);
    } else {
      assert want[..|es|] == want;
    }
  }

  lemma NextIsAcceptable(p: Policy, want: seq<Entry>, es: seq<Entry>)
    requires Acceptable(want, p) && |es| < |want| && es == want[..|es|]
    ensures Acceptable(es + [want[|es|]], p) && want[..|es| + 1] == es + [want[|es|]]
  {
    assert want[..|es| + 1] == es + [want[|es|]];
    AcceptablePrefix(want, |es| + 1, p);
  }

  predicate Readable(tar: Bytes, p: Policy, es: seq<Entry>) {
    Layout(tar, es) && Acceptable(es, p)
  }

  /** The scan. It succeeds exactly when the input has an acceptable layout: entries that tile it from
      offset 0 to an all-zero block, the selected ones distinct and within the caps. Then the result
      is the selected slices and the counts of that layout. */
  method TarRegularFiles(tar: Bytes, p: Policy) returns (r: Result<(map<Bytes, Bytes>, Report)>, ghost es: seq<Entry>)
    ensures r.Ok? <==> exists want :: Readable(tar, p, want)
    ensures r.Ok? ==> Readable(tar, p, es) && Within(tar, es) && r.value == (Files(tar, es, p), Counts(es, p))
  {
    ghost var hope := exists want :: Readable(tar, p, want);
    ghost var want: seq<Entry> := [];
    if hope { want :| Readable(tar, p, want); }
    var out, report, total, at, ended := map[], Report(0, 0, 0), 0, 0, false;
    es := [];
    while at + BLOCK <= |tar|
      invariant at == After(es) && Chain(tar, es) && !ended
      invariant Results(tar, p, es, out, report, total)
      invariant hope ==> OnTrack(tar, p, want, es)
      decreases |tar| - at
    {
      if hope { TrackNext(tar, p, want, es); }
      if tar[at..at + BLOCK] == Zeros() {
        ended := true;
        break;
      }
      var found := Find(tar, at);
      if found.Err? { return Err(found.reason), es; }
      var e := found.value;
      var step := Visit(tar, p, e, out, report, total, es);
      if step.Err? { return Err(step.reason), es; }
      ChainGrows(tar, es, e);
      assert hope ==> e == want[|es|];
      out, report, total := step.value.0, step.value.1, step.value.2;
      es := es + [e];
      at := NextAt(e);
    }
    if !ended {
      if hope { TrackNext(tar, p, want, es); }
      return Err("tar archive has no end-of-archive marker"), es;
    }
    assert Readable(tar, p, es);
    return Ok((out, report)), es;
  }

  // ---- what a layout implies ------------------------------------------------------------------------------------

  lemma EntryStart(tar: Bytes, es: seq<Entry>, i: nat)
    requires Chain(tar, es) && i < |es|
    ensures es[i].start == After(es[..i]) + BLOCK
  {
    assert EntryAt(tar, After(es[..i]), es[i]);
  }

  /** Every header of a chain lies on a block boundary. */
  lemma {:induction false} BlocksAlign(tar: Bytes, es: seq<Entry>, k: nat) returns (blocks: nat)
    requires Chain(tar, es) && k <= |es|
    ensures After(es[..k]) == blocks * BLOCK
  {
    if k == 0 {
      blocks := 0;
    } else {
      var before := BlocksAlign(tar, es, k - 1);
      EntryStart(tar, es, k - 1);
      blocks := before + 1 + (es[k - 1].head.size + 511) / 512;
    }
  }

  /** Slices are disjoint and ascending, each after its own header block. */
  lemma {:induction false} SlicesAscend(tar: Bytes, es: seq<Entry>, i: nat, j: nat)
    requires Chain(tar, es) && i < j < |es|
    ensures es[i].start + es[i].head.size + BLOCK <= es[j].start
    decreases j
  {
    assert EntryAt(tar, After(es[..j]), es[j]) && EntryAt(tar, After(es[..j - 1]), es[j - 1]);
    if i < j - 1 { SlicesAscend(tar, es, i, j - 1); }
  }

  /** The report's counts add up to the headers scanned. */
  lemma {:induction false} CountsAddUp(es: seq<Entry>, p: Policy)
    ensures Counts(es, p).selected + Counts(es, p).ignored + Counts(es, p).skipped == |es|
  {
    if es != [] { CountsAddUp(es[..|es| - 1], p); }
  }

  lemma {:induction false} SelectedSlice(tar: Bytes, es: seq<Entry>, p: Policy, i: nat)
    requires Within(tar, es) && Acceptable(es, p) && i < |es| && Wanted(p, es[i])
    ensures es[i].head.name in Files(tar, es, p) && Files(tar, es, p)[es[i].head.name] == Slice(tar, es[i])
  {
    var n := |es| - 1;
    if i < n {
      assert es == es[..n] + [es[n]];
      AcceptableGrows(es[..n], es[n], p);
      SelectedSlice(tar, es[..n], p, i);
      FilesKeys(tar, es[..n], p, es[n].head.name);
    }
  }

  /** A name is returned exactly when a selected regular entry has it; then its file is exactly that
      entry's slice of the input. */
  lemma FilesAreTheSelectedSlices(tar: Bytes, es: seq<Entry>, p: Policy, name: Bytes)
    requires Within(tar, es) && Acceptable(es, p)
    ensures name in Files(tar, es, p) <==> Taken(es, p, name)
    ensures forall i :: 0 <= i < |es| && Wanted(p, es[i]) && es[i].head.name == name ==>
      Files(tar, es, p)[name] == Slice(tar, es[i])
    ensures name in Files(tar, es, p) ==> p.select(name)
  {
    FilesKeys(tar, es, p, name);
    forall i | 0 <= i < |es| && Wanted(p, es[i]) && es[i].head.name == name
      ensures Files(tar, es, p)[name] == Slice(tar, es[i])
    {
      SelectedSlice(tar, es, p, i);
    }
  }

  lemma SameEntry(tar: Bytes, a: seq<Entry>, b: seq<Entry>, i: nat)
    requires Chain(tar, a) && Chain(tar, b) && i < |a| && i < |b| && a[..i] == b[..i]
    ensures a[i] == b[i]
  {
    assert EntryAt(tar, After(a[..i]), a[i]) && EntryAt(tar, After(b[..i]), b[i]);
  }

  lemma {:induction false} ChainIsUnique(tar: Bytes, a: seq<Entry>, b: seq<Entry>, k: nat)
    requires Chain(tar, a) && Chain(tar, b) && k <= |a| && k <= |b|
    ensures a[..k] == b[..k]
  {
    if k > 0 {
      ChainIsUnique(tar, a, b, k - 1);
      SameEntry(tar, a, b, k - 1);
      assert a[..k] == a[..k - 1] + [a[k - 1]] && b[..k] == b[..k - 1] + [b[k - 1]];
    }
  }

  lemma EntryIsNoEnd(tar: Bytes, es: seq<Entry>, i: nat)
    requires Chain(tar, es) && i < |es|
    ensures After(es[..i]) + BLOCK <= |tar| && tar[After(es[..i])..After(es[..i]) + BLOCK] != Zeros()
  {
    assert EntryAt(tar, After(es[..i]), es[i]);
  }

  lemma NotLonger(tar: Bytes, a: seq<Entry>, b: seq<Entry>)
    requires Layout(tar, a) && Layout(tar, b)
    ensures |b| <= |a|
  {
    if |a| < |b| {
      ChainIsUnique(tar, a, b, |a|);
      assert a[..|a|] == a;
      EntryIsNoEnd(tar, b, |a|);
    }
  }

  /** An input has at most one layout. */
  lemma LayoutIsUnique(tar: Bytes, a: seq<Entry>, b: seq<Entry>)
    requires Layout(tar, a) && Layout(tar, b)
    ensures a == b
  {
    NotLonger(tar, a, b);
    NotLonger(tar, b, a);
    ChainIsUnique(tar, a, b, |a|);
    assert a[..|a|] == a && b[..|b|] == b;
  }
}
