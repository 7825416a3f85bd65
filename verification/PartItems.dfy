/** The parts of module Layout as items at offsets. */
module PartItems {
  import opened Basics
  import opened Layout
  import opened Offsets

  predicate Simple(p: Part) { p.PField? || p.POpt? || p.PByte? }

  predicate AllSimple(ps: seq<Part>) { forall i :: 0 <= i < |ps| ==> Simple(ps[i]) }

  /** No set within a set. */
  predicate Shallow(p: Part) {
    && (p.PList? ==> forall i :: 0 <= i < |p.items| ==> AllSimple(p.items[i]))
    && (p.PGroup? && p.g.Some? ==> AllSimple(p.g.value))
  }

  predicate AllShallow(ps: seq<Part>) { forall i :: 0 <= i < |ps| ==> Shallow(ps[i]) }

  function One(p: Part): Item
    requires Simple(p)
  {
    match p
    case PField(x) => Text(x)
    case POpt(o) => Maybe(o)
    case PByte(b) => Tag(b)
  }

  function Ones(ps: seq<Part>): seq<Item>
    requires AllSimple(ps)
  {
    seq(|ps|, i requires 0 <= i < |ps| => One(ps[i]))
  }

  function Each(xs: seq<seq<Part>>): seq<Item>
    requires forall i :: 0 <= i < |xs| ==> AllSimple(xs[i])
  {
    if xs == [] then [] else Ones(xs[0]) + Each(xs[1..])
  }

  function ItemsOf(p: Part): seq<Item>
    requires Shallow(p)
  {
    match p
    case PList(items) => [Number(|items|)] + Each(items)
    case PGroup(g) => if g.None? then [Tag(0)] else [Tag(1)] + Ones(g.value)
    case _ => [One(p)]
  }

  function ItemsOfAll(ps: seq<Part>): seq<Item>
    requires AllShallow(ps)
  {
    if ps == [] then [] else ItemsOf(ps[0]) + ItemsOfAll(ps[1..])
  }

  lemma SimpleIsWritten(p: Part, k: Kind)
    requires Layout.Fits(p, k) && Simple(p)
    ensures Fit(One(p)) && Written(One(p)) == Encode(p, k)
  {
  }

  lemma {:induction false} OnesAreJoined(ps: seq<Part>, ks: seq<Kind>)
    requires FitsAll(ps, ks) && AllSimple(ps)
    ensures AllFit(Ones(ps)) && Joined(Ones(ps)) == EncodeAll(ps, ks)
  {
    if ps != [] {
      SimpleIsWritten(ps[0], ks[0]);
      OnesAreJoined(ps[1..], ks[1..]);
      JoinedOne(One(ps[0]), Ones(ps[1..]));
      assert Ones(ps) == [One(ps[0])] + Ones(ps[1..]);
    }
  }

  lemma {:induction false} EachIsJoined(xs: seq<seq<Part>>, of: seq<Kind>)
    requires forall i :: 0 <= i < |xs| ==> FitsAll(xs[i], of) && AllSimple(xs[i])
    ensures AllFit(Each(xs)) && Joined(Each(xs)) == EncodeItems(xs, of)
  {
    if xs != [] {
      OnesAreJoined(xs[0], of);
      EachIsJoined(xs[1..], of);
      JoinedAppends(Ones(xs[0]), Each(xs[1..]));
    }
  }

  lemma JoinedSingle(i: Item)
    requires Fit(i)
    ensures AllFit([i]) && Joined([i]) == Written(i)
  {
    assert [i][1..] == [] && Written(i) + [] == Written(i);
  }

  lemma PartIsJoined(p: Part, k: Kind)
    requires Layout.Fits(p, k) && Shallow(p)
    ensures AllFit(ItemsOf(p)) && Joined(ItemsOf(p)) == Encode(p, k)
  {
    match p
    case PList(items) =>
      EachIsJoined(items, k.of);
      JoinedOne(Number(|items|), Each(items));
    case PGroup(g) =>
      if g.None? {
        JoinedSingle(Tag(0));
      } else {
        OnesAreJoined(g.value, k.of);
        JoinedOne(Tag(1), Ones(g.value));
      }
    case _ =>
      SimpleIsWritten(p, k);
      JoinedSingle(One(p));
  }

  lemma {:induction false} AllAreJoined(ps: seq<Part>, ks: seq<Kind>)
    requires FitsAll(ps, ks) && AllShallow(ps)
    ensures AllFit(ItemsOfAll(ps)) && Joined(ItemsOfAll(ps)) == EncodeAll(ps, ks)
  {
    if ps != [] {
      PartIsJoined(ps[0], ks[0]);
      AllAreJoined(ps[1..], ks[1..]);
      JoinedAppends(ItemsOf(ps[0]), ItemsOfAll(ps[1..]));
    }
  }

  lemma OnePart(p: Part, rest: seq<Part>)
    requires Shallow(p) && AllShallow(rest)
    ensures AllShallow([p] + rest) && ItemsOfAll([p] + rest) == ItemsOf(p) + ItemsOfAll(rest)
  {
    assert ([p] + rest)[1..] == rest;
  }

  lemma Regroup(a: seq<Item>, b: seq<Item>, c: seq<Item>)
    ensures (a + b) + c == a + (b + c)
  {
  }

  /** Fields, optional fields and bytes are one item each. */
  lemma {:induction false} SimpleParts(ps: seq<Part>, rest: seq<Part>)
    requires AllSimple(ps) && AllShallow(rest)
    ensures AllShallow(ps + rest) && ItemsOfAll(ps + rest) == Ones(ps) + ItemsOfAll(rest)
  {
    if ps == [] {
      assert ps + rest == rest;
    } else {
      SimpleParts(ps[1..], rest);
      OnePart(ps[0], ps[1..] + rest);
      assert ps + rest == [ps[0]] + (ps[1..] + rest);
      assert Ones(ps) == [One(ps[0])] + Ones(ps[1..]);
      Regroup([One(ps[0])], Ones(ps[1..]), ItemsOfAll(rest));
    }
  }

  lemma OnlySimple(ps: seq<Part>)
    requires AllSimple(ps)
    ensures AllShallow(ps) && ItemsOfAll(ps) == Ones(ps)
  {
    SimpleParts(ps, []);
    assert ps + [] == ps && Ones(ps) + [] == Ones(ps);
  }
}
