/** Canonical layouts as lists of parts. Two lists of the same kinds that encode to bytes with a
    common continuation are equal, nested sets included. */
module Layout {
  import opened Basics
  import opened Wire

  /** The shape of a part: a field, an optional field, a byte, a counted list or a tagged group. */
  datatype Kind = KField | KOpt | KByte | KList(of: seq<Kind>) | KGroup(of: seq<Kind>)

  datatype Part =
    | PField(x: Bytes)
    | POpt(o: Option<Bytes>)
    | PByte(b: Byte)
    | PList(items: seq<seq<Part>>)
    | PGroup(g: Option<seq<Part>>)

  predicate Fits(p: Part, k: Kind)
    decreases k, 0
  {
    match k
    case KField => p.PField? && Short(p.x)
    case KOpt => p.POpt? && (p.o.Some? ==> Short(p.o.value))
    case KByte => p.PByte?
    case KList(of) => p.PList? && |p.items| < U32_LIMIT && forall i :: 0 <= i < |p.items| ==> FitsAll(p.items[i], of)
    case KGroup(of) => p.PGroup? && (p.g.Some? ==> FitsAll(p.g.value, of))
  }

  predicate FitsAll(ps: seq<Part>, ks: seq<Kind>)
    decreases ks, 1
  {
    |ps| == |ks| && forall i :: 0 <= i < |ks| ==> Fits(ps[i], ks[i])
  }

  function Encode(p: Part, k: Kind): Bytes
    requires Fits(p, k)
    decreases k, 0, 0
  {
    match k
    case KField => Field(p.x)
    case KOpt => if p.o.None? then [0] else [1] + Field(p.o.value)
    case KByte => [p.b]
    case KList(of) => U32(|p.items|) + EncodeItems(p.items, of)
    case KGroup(of) => if p.g.None? then [0] else [1] + EncodeAll(p.g.value, of)
  }

  function EncodeAll(ps: seq<Part>, ks: seq<Kind>): Bytes
    requires FitsAll(ps, ks)
    decreases ks, 1, 0
  {
    if ps == [] then [] else Encode(ps[0], ks[0]) + EncodeAll(ps[1..], ks[1..])
  }

  function EncodeItems(items: seq<seq<Part>>, of: seq<Kind>): Bytes
    requires forall i :: 0 <= i < |items| ==> FitsAll(items[i], of)
    decreases of, 2, |items|
  {
    if items == [] then [] else EncodeAll(items[0], of) + EncodeItems(items[1..], of)
  }

  lemma {:induction false} PartCancels(p: Part, q: Part, k: Kind, r: Bytes, s: Bytes)
    requires Fits(p, k) && Fits(q, k) && Encode(p, k) + r == Encode(q, k) + s
    ensures p == q && r == s
    decreases k, 0, 0
  {
    match k
    case KField => FieldCancels(p.x, q.x, r, s);
    case KOpt =>
      assert (Encode(p, k) + r)[0] == (Encode(q, k) + s)[0];
      if p.o.Some? {
        TagCancels(1, Field(p.o.value), Field(q.o.value), r, s);
        FieldCancels(p.o.value, q.o.value, r, s);
      } else {
        ByteCancels(0, 0, r, s);
      }
    case KByte => ByteCancels(p.b, q.b, r, s);
    case KList(of) =>
      var x, y := EncodeItems(p.items, of), EncodeItems(q.items, of);
      assert Encode(p, k) + r == U32(|p.items|) + (x + r) && Encode(q, k) + s == U32(|q.items|) + (y + s);
      U32RoundTrip(|p.items|, x + r);
      U32RoundTrip(|q.items|, y + s);
      ItemsCancel(p.items, q.items, of, r, s);
    case KGroup(of) =>
      assert (Encode(p, k) + r)[0] == (Encode(q, k) + s)[0];
      if p.g.Some? {
        TagCancels(1, EncodeAll(p.g.value, of), EncodeAll(q.g.value, of), r, s);
        PartsCancel(p.g.value, q.g.value, of, r, s);
      } else {
        ByteCancels(0, 0, r, s);
      }
  }

  lemma TagCancels(t: Byte, a: Bytes, b: Bytes, r: Bytes, s: Bytes)
    requires [t] + a + r == [t] + b + s
    ensures a + r == b + s
  {
    assert a + r == ([t] + a + r)[1..] && b + s == ([t] + b + s)[1..];
  }

  lemma ByteCancels(b: Byte, c: Byte, r: Bytes, s: Bytes)
    requires [b] + r == [c] + s
    ensures b == c && r == s
  {
    assert b == ([b] + r)[0] && c == ([c] + s)[0] && r == ([b] + r)[1..] && s == ([c] + s)[1..];
  }

  /** Lists of parts of the same kinds are self-delimiting. */
  lemma {:induction false} PartsCancel(ps: seq<Part>, qs: seq<Part>, ks: seq<Kind>, r: Bytes, s: Bytes)
    requires FitsAll(ps, ks) && FitsAll(qs, ks) && EncodeAll(ps, ks) + r == EncodeAll(qs, ks) + s
    ensures ps == qs && r == s
    decreases ks, 1, 0
  {
    if ks != [] {
      var x, y := EncodeAll(ps[1..], ks[1..]), EncodeAll(qs[1..], ks[1..]);
      assert EncodeAll(ps, ks) + r == Encode(ps[0], ks[0]) + (x + r);
      assert EncodeAll(qs, ks) + s == Encode(qs[0], ks[0]) + (y + s);
      PartCancels(ps[0], qs[0], ks[0], x + r, y + s);
      PartsCancel(ps[1..], qs[1..], ks[1..], r, s);
      assert ps == [ps[0]] + ps[1..] && qs == [qs[0]] + qs[1..];
    } else {
      assert EncodeAll(ps, ks) + r == r && EncodeAll(qs, ks) + s == s;
    }
  }

  lemma {:induction false} ItemsCancel(a: seq<seq<Part>>, b: seq<seq<Part>>, of: seq<Kind>, r: Bytes, s: Bytes)
    requires |a| == |b|
    requires forall i :: 0 <= i < |a| ==> FitsAll(a[i], of)
    requires forall i :: 0 <= i < |b| ==> FitsAll(b[i], of)
    requires EncodeItems(a, of) + r == EncodeItems(b, of) + s
    ensures a == b && r == s
    decreases of, 2, |a|
  {
    if a != [] {
      var x, y := EncodeItems(a[1..], of), EncodeItems(b[1..], of);
      assert EncodeItems(a, of) + r == EncodeAll(a[0], of) + (x + r);
      assert EncodeItems(b, of) + s == EncodeAll(b[0], of) + (y + s);
      PartsCancel(a[0], b[0], of, x + r, y + s);
      ItemsCancel(a[1..], b[1..], of, r, s);
      assert a == [a[0]] + a[1..] && b == [b[0]] + b[1..];
    } else {
      assert EncodeItems(a, of) + r == r && EncodeItems(b, of) + s == s;
    }
  }

  lemma JoinsFit(ps: seq<Part>, qs: seq<Part>, ks: seq<Kind>, ls: seq<Kind>)
    requires FitsAll(ps, ks) && FitsAll(qs, ls)
    ensures FitsAll(ps + qs, ks + ls)
  {
  }

  lemma {:induction false} JoinParts(ps: seq<Part>, qs: seq<Part>, ks: seq<Kind>, ls: seq<Kind>)
    requires FitsAll(ps, ks) && FitsAll(qs, ls)
    ensures FitsAll(ps + qs, ks + ls) && EncodeAll(ps + qs, ks + ls) == EncodeAll(ps, ks) + EncodeAll(qs, ls)
  {
    if ps == [] {
      assert ps + qs == qs && ks + ls == ls;
    } else {
      JoinParts(ps[1..], qs, ks[1..], ls);
      JoinsFit(ps, qs, ks, ls);
      assert (ps + qs)[1..] == ps[1..] + qs && (ks + ls)[1..] == ks[1..] + ls;
      var e, x, y := Encode(ps[0], ks[0]), EncodeAll(ps[1..], ks[1..]), EncodeAll(qs, ls);
      assert EncodeAll(ps + qs, ks + ls) == e + (x + y) == (e + x) + y;
    }
  }

  // ---- parts shared by several layouts ------------------------------------------------------------

  lemma {:induction false} AppendItem(items: seq<seq<Part>>, of: seq<Kind>, x: seq<Part>)
    requires (forall i :: 0 <= i < |items| ==> FitsAll(items[i], of)) && FitsAll(x, of)
    ensures EncodeItems(items + [x], of) == EncodeItems(items, of) + EncodeAll(x, of)
  {
    if items == [] {
      assert items + [x] == [x] && ([x])[1..] == [];
    } else {
      AppendItem(items[1..], of, x);
      assert (items + [x])[1..] == items[1..] + [x];
    }
  }

  /** Evidence is a set: sorted, without duplicates, counted, then field by field. */
  method EvidenceBytes(refs: seq<Bytes>) returns (out: Bytes)
    requires Fits(EvidencePart(refs), KList([KField]))
    ensures out == Encode(EvidencePart(refs), KList([KField]))
  {
    ghost var items := EvidencePart(refs).items;
    var evidence := SortUnique(refs);
    out := U32(|evidence|);
    for i := 0 to |evidence|
      invariant out == U32(|evidence|) + EncodeItems(items[..i], [KField])
    {
      assert FitsAll(items[i], [KField]) && items[i] == [PField(evidence[i])];
      FieldItem(evidence[i]);
      AppendItem(items[..i], [KField], items[i]);
      assert items[..i + 1] == items[..i] + [items[i]];
      out := out + Field(evidence[i]);
    }
    assert items[..|evidence|] == items;
  }

  /** An empty optional field carries no meaning. */
  function NormOpt(o: Option<Bytes>): Option<Bytes> {
    if o == Some([]) then None else o
  }

  function PairPart(p: Option<(Bytes, Bytes)>): Part {
    PGroup(if p.None? then None else Some([PField(p.value.0), PField(p.value.1)]))
  }

  function EvidencePart(refs: seq<Bytes>): Part {
    var sorted := SortUnique(refs);
    PList(seq(|sorted|, i requires 0 <= i < |sorted| => [PField(sorted[i])]))
  }

  lemma FieldItem(x: Bytes)
    requires Short(x)
    ensures FitsAll([PField(x)], [KField]) && EncodeAll([PField(x)], [KField]) == Field(x)
  {
    assert ([PField(x)])[1..] == [] && ([KField])[1..] == [];
  }
}
