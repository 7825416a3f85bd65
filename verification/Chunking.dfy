/** Splitting one transition into commits under an operation and a byte bound. */
module Chunking {
  import opened Wire
  import opened Lineage

  const MAX_OPS := 5000
  const MAX_BYTES := 1_400_000

  /** One commit's worth of operations. */
  datatype Chunk = Chunk(dels: seq<Quad>, adds: seq<Quad>)

  function Size(c: Chunk): nat { |c.dels| + |c.adds| }

  function Total(xs: seq<Quad>): nat {
    if xs == [] then 0 else Total(xs[..|xs| - 1]) + |xs[|xs| - 1]|
  }

  function Weight(c: Chunk): nat { Total(c.dels) + Total(c.adds) }

  function Dels(cs: seq<Chunk>): seq<Quad> {
    if cs == [] then [] else Dels(cs[..|cs| - 1]) + cs[|cs| - 1].dels
  }

  function Adds(cs: seq<Chunk>): seq<Quad> {
    if cs == [] then [] else Adds(cs[..|cs| - 1]) + cs[|cs| - 1].adds
  }

  /** Never empty, never over the operation bound, over the byte bound only for one operation. */
  predicate ChunkOk(c: Chunk) {
    1 <= Size(c) <= MAX_OPS && (Weight(c) <= MAX_BYTES || Size(c) == 1)
  }

  /** No delete follows an add. */
  predicate DeletesFirst(cs: seq<Chunk>) {
    forall i, j :: 0 <= i < j < |cs| && cs[i].adds != [] ==> cs[j].dels == []
  }

  predicate Full(c: Chunk, q: Quad) {
    Size(c) == MAX_OPS || Weight(c) + |q| > MAX_BYTES
  }

  function First(c: Chunk): Quad
    requires Size(c) > 0
  {
    if c.dels != [] then c.dels[0] else c.adds[0]
  }

  /** A chunk was closed only because the next operation did not fit. */
  predicate ClosedFor(c: Chunk, next: Chunk) {
    Size(next) > 0 && Full(c, First(next))
  }

  predicate Greedy(cs: seq<Chunk>) {
    forall i :: 0 <= i < |cs| - 1 ==> ClosedFor(cs[i], cs[i + 1])
  }

  /** Nothing lost, nothing reordered, every bound kept, no chunk closed early. */
  predicate Splits(cs: seq<Chunk>, dels: seq<Quad>, adds: seq<Quad>) {
    && Dels(cs) == dels && Adds(cs) == adds && DeletesFirst(cs) && Greedy(cs)
    && forall i :: 0 <= i < |cs| ==> ChunkOk(cs[i])
  }

  lemma Append(cs: seq<Chunk>, c: Chunk)
    ensures Dels(cs + [c]) == Dels(cs) + c.dels && Adds(cs + [c]) == Adds(cs) + c.adds
  {
    assert (cs + [c])[..|cs|] == cs;
  }

  lemma TotalGrows(xs: seq<Quad>, x: Quad)
    ensures Total(xs + [x]) == Total(xs) + |x|
  {
    assert (xs + [x])[..|xs|] == xs;
  }

  /** The current chunk closes the list when it is not empty. */
  function Flush(out: seq<Chunk>, c: Chunk): seq<Chunk> {
    if c.dels == [] && c.adds == [] then out else out + [c]
  }

  /** The loop's state after the operations in `dels` and `adds`: closed chunks and an open one. */
  predicate Going(out: seq<Chunk>, c: Chunk, dels: seq<Quad>, adds: seq<Quad>) {
    && Dels(out) + c.dels == dels && Adds(out) + c.adds == adds
    && (forall i :: 0 <= i < |out| ==> ChunkOk(out[i])) && (Size(c) > 0 ==> ChunkOk(c))
    && (adds == [] ==> (forall i :: 0 <= i < |out| ==> out[i].adds == []) && c.adds == [])
    && DeletesFirst(out + [c])
  }

  lemma FlushSplits(out: seq<Chunk>, c: Chunk, dels: seq<Quad>, adds: seq<Quad>)
    requires Going(out, c, dels, adds) && Greedy(Flush(out, c))
    ensures Splits(Flush(out, c), dels, adds)
  {
    Append(out, c);
    assert forall i :: 0 <= i < |out| ==> (out + [c])[i] == out[i];
  }

  /** An open chunk is empty only before the first operation. */
  predicate Chunked(out: seq<Chunk>, c: Chunk, dels: seq<Quad>, adds: seq<Quad>) {
    Going(out, c, dels, adds) && Greedy(Flush(out, c)) && (Size(c) == 0 ==> out == [])
  }

  /** One operation: close the open chunk if it is full, then push. */
  method PushOp(out: seq<Chunk>, c: Chunk, bytes: nat, isDelete: bool, q: Quad, ghost dels: seq<Quad>,
                ghost adds: seq<Quad>)
    returns (out': seq<Chunk>, c': Chunk, bytes': nat)
    requires Chunked(out, c, dels, adds) && bytes == Weight(c) && (isDelete ==> adds == [])
    ensures Chunked(out', c', if isDelete then dels + [q] else dels, if isDelete then adds else adds + [q])
      && bytes' == Weight(c')
  {
    out', c', bytes' := out, c, bytes;
    var full := Size(c) == MAX_OPS || bytes + |q| > MAX_BYTES;
    if full && (c.dels != [] || c.adds != []) {
      CloseKeeps(out, c, dels, adds);
      out', c', bytes' := out + [c], Chunk([], []), 0;
    } else if Size(c) > 0 {
      GreedyShrinks(out, c);
    }
    PushKeeps(out', c', isDelete, q, dels, adds);
    bytes' := bytes' + |q|;
    if isDelete {
      c' := c'.(dels := c'.dels + [q]);
    } else {
      c' := c'.(adds := c'.adds + [q]);
    }
  }

  /** The operation fits the open chunk; an empty open chunk was opened for it. */
  predicate Room(out: seq<Chunk>, c: Chunk, q: Quad) {
    && Size(c) < MAX_OPS && (Size(c) > 0 ==> Weight(c) + |q| <= MAX_BYTES)
    && Greedy(out) && (out != [] ==> if Size(c) > 0 then ClosedFor(out[|out| - 1], c) else Full(out[|out| - 1], q))
  }

  function Push(c: Chunk, isDelete: bool, q: Quad): Chunk {
    if isDelete then c.(dels := c.dels + [q]) else c.(adds := c.adds + [q])
  }

  lemma PushKeeps(out: seq<Chunk>, c: Chunk, isDelete: bool, q: Quad, dels: seq<Quad>, adds: seq<Quad>)
    requires Going(out, c, dels, adds) && Room(out, c, q) && (isDelete ==> adds == [])
    ensures Chunked(out, Push(c, isDelete, q),
                    if isDelete then dels + [q] else dels, if isDelete then adds else adds + [q])
    ensures Weight(Push(c, isDelete, q)) == Weight(c) + |q|
  {
    if isDelete { DeleteKeeps(out, c, dels, q); } else { AddKeeps(out, c, dels, adds, q); }
    PushKeepsFirst(c, isDelete, q);
    GreedyGrows(out, Push(c, isDelete, q));
  }

  lemma PushKeepsFirst(c: Chunk, isDelete: bool, q: Quad)
    requires isDelete ==> c.adds == []
    ensures First(Push(c, isDelete, q)) == if Size(c) > 0 then First(c) else q
  {
  }

  function TakenDels(dels: seq<Quad>, i: nat): seq<Quad> {
    if i <= |dels| then dels[..i] else dels
  }

  function TakenAdds(dels: seq<Quad>, adds: seq<Quad>, i: nat): seq<Quad>
    requires i <= |dels| + |adds|
  {
    if i <= |dels| then [] else adds[..i - |dels|]
  }

  method PushAll(dels: seq<Quad>, adds: seq<Quad>) returns (out: seq<Chunk>, c: Chunk)
    ensures Chunked(out, c, dels, adds)
  {
    var bytes := 0;
    out, c := [], Chunk([], []);
    StartsChunked(dels);
    for i := 0 to |dels| + |adds|
      invariant Chunked(out, c, TakenDels(dels, i), TakenAdds(dels, adds, i)) && bytes == Weight(c)
    {
      var isDelete := i < |dels|;
      var q := if isDelete then dels[i] else adds[i - |dels|];
      TakeOne(dels, adds, i);
      out, c, bytes := PushOp(out, c, bytes, isDelete, q, TakenDels(dels, i), TakenAdds(dels, adds, i));
    }
    TakenAll(dels, adds);
  }

  /** The chunker: deletes first, then adds, a new chunk whenever the open one is full. */
  method Chunks(dels: seq<Quad>, adds: seq<Quad>) returns (out: seq<Chunk>)
    ensures Splits(out, dels, adds)
  {
    var c;
    out, c := PushAll(dels, adds);
    FlushSplits(out, c, dels, adds);
    if c.dels != [] || c.adds != [] { out := out + [c]; }
  }

  lemma StartsChunked(dels: seq<Quad>)
    ensures Chunked([], Chunk([], []), TakenDels(dels, 0), []) && Weight(Chunk([], [])) == 0
  {
  }

  lemma TakeOne(dels: seq<Quad>, adds: seq<Quad>, i: nat)
    requires i < |dels| + |adds|
    ensures TakenDels(dels, i + 1) == if i < |dels| then TakenDels(dels, i) + [dels[i]] else TakenDels(dels, i)
    ensures TakenAdds(dels, adds, i + 1) == if i < |dels| then TakenAdds(dels, adds, i)
      else TakenAdds(dels, adds, i) + [adds[i - |dels|]]
  {
    if i >= |dels| { assert dels[..|dels|] == dels; }
  }

  lemma TakenAll(dels: seq<Quad>, adds: seq<Quad>)
    ensures TakenDels(dels, |dels| + |adds|) == dels && TakenAdds(dels, adds, |dels| + |adds|) == adds
  {
  }

  lemma CloseKeeps(out: seq<Chunk>, c: Chunk, dels: seq<Quad>, adds: seq<Quad>)
    requires Going(out, c, dels, adds) && Size(c) > 0
    ensures Going(out + [c], Chunk([], []), dels, adds) && Weight(Chunk([], [])) == 0
  {
    Append(out, c);
    var next := out + [c] + [Chunk([], [])];
    forall i, j | 0 <= i < j < |next| && next[i].adds != [] ensures next[j].dels == [] {
      if j < |out| + 1 { assert (out + [c])[i] == next[i] && (out + [c])[j] == next[j]; }
    }
  }

  lemma GreedyGrows(cs: seq<Chunk>, d: Chunk)
    requires Greedy(cs) && Size(d) > 0 && (cs != [] ==> Full(cs[|cs| - 1], First(d)))
    ensures Greedy(cs + [d])
  {
    forall i | 0 <= i < |cs + [d]| - 1 ensures ClosedFor((cs + [d])[i], (cs + [d])[i + 1]) {
      if i < |cs| - 1 { assert ClosedFor(cs[i], cs[i + 1]); }
    }
  }

  lemma GreedyShrinks(cs: seq<Chunk>, c: Chunk)
    requires Greedy(cs + [c])
    ensures Greedy(cs) && (cs != [] ==> ClosedFor(cs[|cs| - 1], c))
  {
    var all := cs + [c];
    forall i | 0 <= i < |cs| - 1 ensures ClosedFor(cs[i], cs[i + 1]) { assert ClosedFor(all[i], all[i + 1]); }
    if cs != [] { assert ClosedFor(all[|cs| - 1], all[|cs|]); }
  }

  lemma {:induction false} DeleteKeeps(out: seq<Chunk>, c: Chunk, dels: seq<Quad>, q: Quad)
    requires Going(out, c, dels, []) && Size(c) < MAX_OPS && (Size(c) > 0 ==> Weight(c) + |q| <= MAX_BYTES)
    ensures Going(out, c.(dels := c.dels + [q]), dels + [q], [])
    ensures Weight(c.(dels := c.dels + [q])) == Weight(c) + |q|
  {
    var d := c.(dels := c.dels + [q]);
    TotalGrows(c.dels, q);
    assert Dels(out) + d.dels == (Dels(out) + c.dels) + [q];
    LastMayDelete(out, d);
  }

  lemma {:induction false} LastMayDelete(out: seq<Chunk>, d: Chunk)
    requires forall i :: 0 <= i < |out| ==> out[i].adds == []
    ensures DeletesFirst(out + [d])
  {
  }

  lemma {:induction false} LastMayAdd(out: seq<Chunk>, c: Chunk, d: Chunk)
    requires DeletesFirst(out + [c]) && d.dels == c.dels
    ensures DeletesFirst(out + [d])
  {
    forall i, j | 0 <= i < j < |out + [d]| && (out + [d])[i].adds != [] ensures (out + [d])[j].dels == [] {
      assert (out + [c])[i].adds != [];
      assert (out + [c])[j].dels == (out + [d])[j].dels;
    }
  }

  lemma {:induction false} AddKeeps(out: seq<Chunk>, c: Chunk, dels: seq<Quad>, adds: seq<Quad>, q: Quad)
    requires Going(out, c, dels, adds) && Size(c) < MAX_OPS && (Size(c) > 0 ==> Weight(c) + |q| <= MAX_BYTES)
    ensures Going(out, c.(adds := c.adds + [q]), dels, adds + [q])
    ensures Weight(c.(adds := c.adds + [q])) == Weight(c) + |q|
  {
    var d := c.(adds := c.adds + [q]);
    TotalGrows(c.adds, q);
    assert Adds(out) + d.adds == (Adds(out) + c.adds) + [q];
    LastMayAdd(out, c, d);
  }

  // ---- what the commits do ---------------------------------------------------------------------------

  function ApplyChunk(s: set<Quad>, c: Chunk): set<Quad> {
    (s - Members(c.dels)) + Members(c.adds)
  }

  function ApplyAll(s: set<Quad>, cs: seq<Chunk>): set<Quad> {
    if cs == [] then s else ApplyChunk(ApplyAll(s, cs[..|cs| - 1]), cs[|cs| - 1])
  }

  lemma MembersJoin(a: seq<Quad>, b: seq<Quad>)
    ensures Members(a + b) == Members(a) + Members(b)
  {
  }

  /** Chunk by chunk is the same as all deletes and then all adds. */
  lemma {:induction false} ChunksApplyTheTransition(s: set<Quad>, cs: seq<Chunk>)
    requires DeletesFirst(cs)
    ensures ApplyAll(s, cs) == (s - Members(Dels(cs))) + Members(Adds(cs))
  {
    if cs != [] {
      var n := |cs| - 1;
      var before, c := cs[..n], cs[n];
      ChunksApplyTheTransition(s, before);
      MembersJoin(Dels(before), c.dels);
      MembersJoin(Adds(before), c.adds);
      if c.dels != [] { NoAdds(before); }
    }
  }

  lemma {:induction false} NoAdds(cs: seq<Chunk>)
    requires forall i :: 0 <= i < |cs| ==> cs[i].adds == []
    ensures Adds(cs) == []
  {
    if cs != [] { NoAdds(cs[..|cs| - 1]); }
  }
}
