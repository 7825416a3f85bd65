/** Length-prefixed canonical layouts: big-endian counts, fields, optional fields and sets, and the
    one theorem every layout rests on: an encoding of a known shape is self-delimiting. */
module Wire {
  type Byte = b: int | 0 <= b < 256
  type Bytes = seq<Byte>

  const U32_LIMIT := 0x1_0000_0000

  lemma Associates(a: Bytes, b: Bytes, c: Bytes)
    ensures (a + b) + c == a + (b + c)
  {
  }

  // ---- integers and fields --------------------------------------------------------------------

  function U32(n: nat): (r: Bytes)
    requires n < U32_LIMIT
    ensures |r| == 4
  {
    [n / 0x100_0000, n / 0x1_0000 % 0x100, n / 0x100 % 0x100, n % 0x100]
  }

  function FromU32(s: Bytes): (n: nat)
    requires |s| >= 4
    ensures n < U32_LIMIT
  {
    s[0] as int * 0x100_0000 + s[1] as int * 0x1_0000 + s[2] as int * 0x100 + s[3] as int
  }

  lemma Digits256(n: nat)
    ensures n == n / 0x100_0000 * 0x100_0000 + n / 0x1_0000 % 0x100 * 0x1_0000 + n / 0x100 % 0x100 * 0x100 + n % 0x100
  {
    var a := n / 0x100;
    var b := a / 0x100;
    assert n / 0x1_0000 == b && n / 0x100_0000 == b / 0x100;
    assert n == a * 0x100 + n % 0x100 && a == b * 0x100 + a % 0x100 && b == b / 0x100 * 0x100 + b % 0x100;
  }

  lemma U32RoundTrip(n: nat, rest: Bytes)
    requires n < U32_LIMIT
    ensures FromU32(U32(n) + rest) == n && (U32(n) + rest)[4..] == rest
  {
    Digits256(n);
    assert (U32(n) + rest)[..4] == U32(n);
  }

  lemma FromU32RoundTrip(s: Bytes)
    requires |s| >= 4
    ensures s == U32(FromU32(s)) + s[4..]
  {
    var n := FromU32(s);
    var a, b, c := s[0] as int, s[1] as int, s[2] as int;
    assert n / 0x100_0000 == a && n / 0x1_0000 == a * 0x100 + b && n / 0x100 == a * 0x1_0000 + b * 0x100 + c;
    assert s[..4] == U32(n);
  }

  predicate Short(x: Bytes) { |x| < U32_LIMIT }

  function Field(x: Bytes): Bytes
    requires Short(x)
  {
    U32(|x|) + x
  }

  lemma FieldCancels(a: Bytes, b: Bytes, r: Bytes, s: Bytes)
    requires Short(a) && Short(b) && Field(a) + r == Field(b) + s
    ensures a == b && r == s
  {
    assert Field(a) + r == U32(|a|) + (a + r);
    assert Field(b) + s == U32(|b|) + (b + s);
    U32RoundTrip(|a|, a + r);
    U32RoundTrip(|b|, b + s);
    assert a == (a + r)[..|a|] && b == (b + s)[..|b|];
    assert r == (a + r)[|a|..] && s == (b + s)[|b|..];
  }

  function Ascii(s: string): Bytes
    requires forall i :: 0 <= i < |s| ==> s[i] as int < 128
  {
    seq(|s|, i requires 0 <= i < |s| => s[i] as int)
  }

  // ---- bytewise order and sets ------------------------------------------------------------------

  predicate Less(a: Bytes, b: Bytes) {
    b != [] && (a == [] || a[0] < b[0] || (a[0] == b[0] && Less(a[1..], b[1..])))
  }

  lemma {:induction false} LessIsTotal(a: Bytes, b: Bytes)
    ensures Less(a, b) || a == b || Less(b, a)
    ensures !(Less(a, b) && Less(b, a)) && !Less(a, a)
  {
    if a != [] && b != [] {
      LessIsTotal(a[1..], b[1..]);
      if a[0] == b[0] && a[1..] == b[1..] { assert a == [a[0]] + a[1..] && b == [b[0]] + b[1..]; }
    }
    if a != [] { LessIsTotal(a[1..], a[1..]); }
  }

  lemma {:induction false} LessIsTransitive(a: Bytes, b: Bytes, c: Bytes)
    requires Less(a, b) && Less(b, c)
    ensures Less(a, c)
  {
    if a != [] && a[0] == b[0] == c[0] { LessIsTransitive(a[1..], b[1..], c[1..]); }
  }

  /** The order at the first difference, a proper prefix first. */
  predicate LessAt(a: Bytes, b: Bytes, k: nat) {
    k <= |a| && k < |b| && a[..k] == b[..k] && (k == |a| || a[k] < b[k])
  }

  lemma {:induction false} LessIsLexicographic(a: Bytes, b: Bytes)
    ensures Less(a, b) <==> exists k: nat :: LessAt(a, b, k)
  {
    if a == [] || b == [] || a[0] != b[0] {
      FirstByteDecides(a, b);
    } else {
      LessIsLexicographic(a[1..], b[1..]);
      if k: nat :| LessAt(a[1..], b[1..], k) { LessLater(a, b, k); }
      if k: nat :| LessAt(a, b, k) {
        assert k > 0 && a[1..][..k - 1] == a[..k][1..] && b[1..][..k - 1] == b[..k][1..];
        assert LessAt(a[1..], b[1..], k - 1);
      }
    }
  }

  lemma FirstByteDecides(a: Bytes, b: Bytes)
    requires a == [] || b == [] || a[0] != b[0]
    ensures Less(a, b) <==> exists k: nat :: LessAt(a, b, k)
  {
    if Less(a, b) { assert LessAt(a, b, 0); }
  }

  lemma LessLater(a: Bytes, b: Bytes, k: nat)
    requires a != [] && b != [] && a[0] == b[0] && LessAt(a[1..], b[1..], k)
    ensures LessAt(a, b, k + 1)
  {
    assert a[..k + 1] == [a[0]] + a[1..][..k] && b[..k + 1] == [b[0]] + b[1..][..k];
  }

  /** Strictly ascending: sorted and without duplicates. */
  predicate Ascending(s: seq<Bytes>) {
    forall i, j :: 0 <= i < j < |s| ==> Less(s[i], s[j])
  }

  function Insert(x: Bytes, s: seq<Bytes>): seq<Bytes> {
    if s == [] || Less(x, s[0]) then [x] + s
    else if x == s[0] then s
    else [s[0]] + Insert(x, s[1..])
  }

  /** Sort bytewise and drop duplicates. */
  function SortUnique(s: seq<Bytes>): seq<Bytes> {
    if s == [] then [] else Insert(s[0], SortUnique(s[1..]))
  }

  function Members(s: seq<Bytes>): set<Bytes> { set x | x in s }

  lemma {:induction false} InsertKeeps(x: Bytes, s: seq<Bytes>)
    requires Ascending(s)
    ensures Ascending(Insert(x, s)) && Members(Insert(x, s)) == Members(s) + {x}
    ensures |Insert(x, s)| <= |s| + 1
  {
    if s == [] {
    } else if Less(x, s[0]) {
      forall j | 0 < j < |s| ensures Less(x, s[j]) { LessIsTransitive(x, s[0], s[j]); }
    } else if x != s[0] {
      LessIsTotal(x, s[0]);
      InsertKeeps(x, s[1..]);
      var r := Insert(x, s[1..]);
      assert Members(s) == {s[0]} + Members(s[1..]);
      forall j | 0 <= j < |r| ensures Less(s[0], r[j]) {
        assert r[j] in Members(s[1..]) + {x};
        if r[j] != x { var k :| 0 <= k < |s[1..]| && s[1..][k] == r[j]; assert Less(s[0], s[k + 1]); }
      }
      assert Members([s[0]] + r) == {s[0]} + Members(r);
    }
  }

  lemma {:induction false} SortUniqueSorts(s: seq<Bytes>)
    ensures Ascending(SortUnique(s)) && Members(SortUnique(s)) == Members(s) && |SortUnique(s)| <= |s|
  {
    if s != [] {
      SortUniqueSorts(s[1..]);
      InsertKeeps(s[0], SortUnique(s[1..]));
      assert Members(s) == Members(s[1..]) + {s[0]};
    }
  }

  /** An ascending list is determined by its members. */
  lemma {:induction false} AscendingIsCanonical(a: seq<Bytes>, b: seq<Bytes>)
    requires Ascending(a) && Ascending(b) && Members(a) == Members(b)
    ensures a == b
  {
    assert (a != [] ==> a[0] in Members(a)) && (b != [] ==> b[0] in Members(b));
    if a != [] && b != [] {
      assert a[0] in Members(b) && b[0] in Members(a);
      var i :| 0 <= i < |b| && b[i] == a[0];
      var j :| 0 <= j < |a| && a[j] == b[0];
      if i > 0 && j > 0 {
        LessIsTotal(a[0], b[0]);
      }
      LessIsTotal(a[0], a[0]);
      assert a[0] == b[0];
      forall x ensures x in Members(a[1..]) <==> x in Members(a) && x != a[0] { TailMembers(a, x); }
      forall x ensures x in Members(b[1..]) <==> x in Members(b) && x != b[0] { TailMembers(b, x); }
      AscendingIsCanonical(a[1..], b[1..]);
      assert a == [a[0]] + a[1..] && b == [b[0]] + b[1..];
    }
  }

  lemma TailMembers(a: seq<Bytes>, x: Bytes)
    requires Ascending(a) && a != []
    ensures x in Members(a[1..]) <==> x in Members(a) && x != a[0]
  {
    if x in Members(a[1..]) {
      var k :| 0 <= k < |a[1..]| && a[1..][k] == x;
      assert Less(a[0], a[k + 1]);
      LessIsTotal(a[0], a[0]);
    }
    if x in Members(a) && x != a[0] {
      var k :| 0 <= k < |a| && a[k] == x;
      assert a[1..][k - 1] == x;
    }
  }

  /** Sorting forgets exactly order and duplication. */
  lemma SortUniqueIsTheSet(a: seq<Bytes>, b: seq<Bytes>)
    ensures SortUnique(a) == SortUnique(b) <==> Members(a) == Members(b)
  {
    SortUniqueSorts(a);
    SortUniqueSorts(b);
    if Members(a) == Members(b) { AscendingIsCanonical(SortUnique(a), SortUnique(b)); }
  }
}
