/** Headers of the ustar Interchange Format, described field by field and independently of the
    reader, and the proof that the scan of module Tar reads back every archive made of them. */
module Ustar {
  import opened Basics
  import opened Wire
  import opened Text
  import opened Tar

  const SIZE_LIMIT := 0x2_0000_0000 // 8 to the 11th

  function Nuls(n: nat): (r: Bytes)
    ensures |r| == n && forall i :: 0 <= i < n ==> r[i] == 0
  {
    seq(n, i => 0)
  }

  /** Exactly `k` octal digits. */
  function OctalDigits(n: nat, k: nat): (r: Bytes)
    ensures |r| == k
  {
    if k == 0 then [] else OctalDigits(n / 8, k - 1) + [48 + n % 8]
  }

  function Pow8(k: nat): nat { if k == 0 then 1 else 8 * Pow8(k - 1) }

  lemma {:induction false} DigitsHaveValue(n: nat, k: nat)
    requires n < Pow8(k)
    ensures Octals(OctalDigits(n, k)) && Value(OctalDigits(n, k)) == n
  {
    if k > 0 {
      DigitsHaveValue(n / 8, k - 1);
      var d := OctalDigits(n, k);
      assert d[..|d| - 1] == OctalDigits(n / 8, k - 1);
    }
  }

  lemma {:induction false} UptoStops(x: Bytes, rest: Bytes)
    requires 0 !in x && (rest != [] ==> rest[0] == 0)
    ensures Upto(x + rest) == x
  {
    if x == [] {
      assert x + rest == rest;
    } else {
      assert (x + rest)[1..] == x[1..] + rest;
      UptoStops(x[1..], rest);
      assert x == [x[0]] + x[1..];
    }
  }

  // ---- numbers ----------------------------------------------------------------------------------------------

  predicate Whites(s: Bytes) { forall i :: 0 <= i < |s| ==> White(s[i]) }

  /** What a numeric field can say: white space, perhaps a plus sign, octal digits of a 64-bit number,
      white space; or white space alone, which is zero. */
  datatype Written = Written(before: Bytes, sign: Bytes, digits: Bytes, after: Bytes)

  predicate Says(w: Written, n: nat) {
    && Whites(w.before) && Whites(w.after) && (w.sign == [] || w.sign == ['+' as int]) && Octals(w.digits)
    && Value(w.digits) == n < U64_LIMIT && (w.digits == [] ==> w.sign == [])
  }

  function Spelled(w: Written): Bytes { w.before + (w.sign + w.digits + w.after) }

  /** The text of a field: up to a NUL or the end; what follows the NUL is not read. */
  predicate Holds(field: Bytes, x: Bytes) {
    x <= field && 0 !in x && (|x| < |field| ==> field[|x|] == 0)
  }

  predicate HoldsNumber(field: Bytes, n: nat, w: Written) { Says(w, n) && Holds(field, Spelled(w)) }

  ghost predicate HoldsOctal(field: Bytes, n: nat) { exists w :: HoldsNumber(field, n, w) }

  lemma {:induction false} UptoHolds(field: Bytes)
    ensures Holds(field, Upto(field))
  {
    if field != [] && field[0] != 0 { UptoHolds(field[1..]); }
  }

  lemma HeldIsUpto(field: Bytes, x: Bytes)
    requires Holds(field, x)
    ensures Upto(field) == x
  {
    UptoStops(x, field[|x|..]);
    assert field == x + field[|x|..];
  }

  lemma {:induction false} TrimsStart(a: Bytes, x: Bytes)
    requires Whites(a) && (x != [] ==> !White(x[0]))
    ensures TrimStart(a + x) == x
  {
    if a == [] {
      assert a + x == x;
    } else {
      assert (a + x)[1..] == a[1..] + x;
      TrimsStart(a[1..], x);
    }
  }

  lemma {:induction false} TrimsEnd(x: Bytes, a: Bytes)
    requires Whites(a) && (x != [] ==> !White(x[|x| - 1]))
    ensures TrimEnd(x + a) == x
  {
    if a == [] {
      assert x + a == x;
    } else {
      assert (x + a)[..|x + a| - 1] == x + a[..|a| - 1];
      TrimsEnd(x, a[..|a| - 1]);
    }
  }

  lemma {:induction false} StartTrimmed(s: Bytes) returns (a: Bytes)
    ensures Whites(a) && s == a + TrimStart(s) && (TrimStart(s) != [] ==> !White(TrimStart(s)[0]))
  {
    if s != [] && White(s[0]) {
      a := StartTrimmed(s[1..]);
      assert s == [s[0]] + s[1..];
      a := [s[0]] + a;
    } else {
      a := [];
    }
  }

  lemma {:induction false} EndTrimmed(s: Bytes) returns (a: Bytes)
    ensures Whites(a) && s == TrimEnd(s) + a
  {
    if s != [] && White(s[|s| - 1]) {
      a := EndTrimmed(s[..|s| - 1]);
      assert s == s[..|s| - 1] + [s[|s| - 1]];
      a := a + [s[|s| - 1]];
    } else {
      a := [];
    }
  }

  /** The text between the white space of what a field says. */
  lemma TrimsToTheNumber(w: Written, n: nat)
    requires Says(w, n)
    ensures TrimEnd(TrimStart(Spelled(w))) == w.sign + w.digits
  {
    var core := w.sign + w.digits;
    if w.digits == [] {
      assert Spelled(w) == (w.before + w.after) + [] && core == [];
      TrimsStart(w.before + w.after, []);
    } else {
      assert core[|core| - 1] == w.digits[|w.digits| - 1];
      TrimsStart(w.before, core + w.after);
      TrimsEnd(core, w.after);
    }
  }

  lemma SaidIsRead(field: Bytes, n: nat, w: Written)
    requires HoldsNumber(field, n, w)
    ensures Octal(field) == Ok(n)
  {
    HeldIsUpto(field, Spelled(w));
    TrimsToTheNumber(w, n);
    var s := w.sign + w.digits;
    if w.sign == [] {
      assert s == w.digits;
    } else {
      assert s[1..] == w.digits;
    }
  }

  lemma ReadIsSaid(field: Bytes, n: nat) returns (w: Written)
    requires Octal(field) == Ok(n)
    ensures HoldsNumber(field, n, w)
  {
    UptoHolds(field);
    var t := Upto(field);
    var before := StartTrimmed(t);
    var after := EndTrimmed(TrimStart(t));
    var s := TrimEnd(TrimStart(t));
    if s != [] && s[0] == 43 {
      w := Written(before, ['+' as int], s[1..], after);
      assert s == w.sign + w.digits;
    } else {
      w := Written(before, [], s, after);
      assert s == w.sign + w.digits;
    }
  }

  /** A numeric field is read as a number exactly when it says that number. */
  lemma OctalReadsExactly(field: Bytes, n: nat)
    ensures Octal(field) == Ok(n) <==> HoldsOctal(field, n)
  {
    if w :| HoldsNumber(field, n, w) { SaidIsRead(field, n, w); }
    if Octal(field) == Ok(n) { var w := ReadIsSaid(field, n); }
  }

  lemma {:induction false} ValueIsBounded(d: Bytes)
    requires Octals(d)
    ensures Value(d) < Pow8(|d|)
  {
    if d != [] { ValueIsBounded(d[..|d| - 1]); }
  }

  // ---- headers ----------------------------------------------------------------------------------------------

  predicate HoldsText(field: Bytes, x: Bytes) { Holds(field, x) && Utf8(x) }

  function Total(s: Bytes): nat {
    if s == [] then 0 else Total(s[..|s| - 1]) + s[|s| - 1] as int
  }

  /** The sum of all bytes of a header, its eight checksum bytes taken as spaces. */
  function Checksum(h: Bytes): nat
    requires |h| == BLOCK
  {
    Total(h[..148]) + 8 * ' ' as int + Total(h[156..])
  }

  lemma {:induction false} SumOfFront(h: Bytes, n: nat)
    requires n <= 148 <= |h|
    ensures Sum(h, n) == Total(h[..n])
  {
    if n > 0 {
      SumOfFront(h, n - 1);
      assert h[..n][..n - 1] == h[..n - 1];
    }
  }

  lemma {:induction false} SumOfBack(h: Bytes, n: nat)
    requires 156 <= n <= |h|
    ensures Sum(h, n) == Sum(h, 156) + Total(h[156..n])
  {
    if n > 156 {
      SumOfBack(h, n - 1);
      assert h[156..n][..n - 157] == h[156..n - 1];
    }
  }

  lemma {:induction false} SumOfItsField(h: Bytes, n: nat)
    requires 148 <= n <= 156 <= |h|
    ensures Sum(h, n) == Sum(h, 148) + (n - 148) * ' ' as int
  {
    if n > 148 { SumOfItsField(h, n - 1); }
  }

  /** The reader's running sum is that total. */
  lemma SumIsTheChecksum(h: Bytes)
    requires |h| == BLOCK
    ensures Sum(h, BLOCK) == Checksum(h)
  {
    SumOfFront(h, 148);
    SumOfBack(h, BLOCK);
    SumOfItsField(h, 156);
    assert h[156..BLOCK] == h[156..];
  }

  /** A header for a member of a given name, prefix, size and type flag, with a checksum of itself.
      Every other byte is free: mode, owner, group, times, link name, magic, version, user and group
      names, device numbers. */
  ghost predicate IsHeader(h: Bytes, prefix: Bytes, name: Bytes, size: nat, flag: Byte) {
    && |h| == BLOCK && HoldsText(h[..100], name) && HoldsText(h[345..500], prefix)
    && HoldsOctal(h[124..136], size) && HoldsOctal(h[148..156], Checksum(h)) && h[156] == flag
  }

  function FullName(prefix: Bytes, name: Bytes): Bytes {
    if prefix == [] then name else prefix + [47] + name
  }

  predicate RegularFlag(flag: Byte) { flag == '0' as int || flag == 0 }

  lemma {:induction false} TotalIsSmall(s: Bytes)
    ensures Total(s) <= 255 * |s|
  {
    if s != [] { TotalIsSmall(s[..|s| - 1]); }
  }

  lemma Powers()
    ensures Pow8(6) == 0x4_0000 && Pow8(11) == SIZE_LIMIT && Pow8(12) == 8 * SIZE_LIMIT
  {
    assert Pow8(3) == 512 && Pow8(6) == 8 * (8 * (8 * Pow8(3)));
    assert Pow8(9) == 8 * (8 * (8 * Pow8(6))) && Pow8(11) == 8 * (8 * Pow8(9));
  }

  lemma {:induction false} PowersGrow(k: nat, m: nat)
    requires k <= m
    ensures Pow8(k) <= Pow8(m)
  {
    if k < m { PowersGrow(k, m - 1); }
  }

  /** A number in a field of at most twelve bytes is below eight to the twelfth. */
  lemma NumberFits(field: Bytes, n: nat)
    requires |field| <= 12 && HoldsOctal(field, n)
    ensures n < Pow8(12)
  {
    var w :| HoldsNumber(field, n, w);
    ValueIsBounded(w.digits);
    PowersGrow(|w.digits|, 12);
  }

  /** The end of an archive is no header: its checksum would be that of 504 zeros and eight spaces. */
  lemma ZerosAreNoHeader(prefix: Bytes, name: Bytes, size: nat, flag: Byte)
    ensures !IsHeader(Zeros(), prefix, name, size, flag)
  {
    var h := Zeros();
    OctalReadsExactly(h[148..156], Checksum(h));
    assert h[148..156][0] == 0 && Upto(h[148..156]) == [];
  }

  /** Any such header reads back with its full name, its size and its kind. */
  lemma HeaderReadsBack(h: Bytes, prefix: Bytes, name: Bytes, size: nat, flag: Byte)
    requires IsHeader(h, prefix, name, size, flag)
    ensures ReadHead(h) == Ok(Head(FullName(prefix, name), size, RegularFlag(flag)))
    ensures h != Zeros()
  {
    SumIsTheChecksum(h);
    OctalReadsExactly(h[148..156], Checksum(h));
    OctalReadsExactly(h[124..136], size);
    HeldIsUpto(h[..100], name);
    HeldIsUpto(h[345..500], prefix);
    NumberFits(h[124..136], size);
    Powers();
    if h == Zeros() { ZerosAreNoHeader(prefix, name, size, flag); }
  }

  /** And nothing else is read: whatever block reads as a header is one, for the name, prefix, size and
      flag in its fields, with its own checksum. */
  lemma ReadsOnlyHeaders(h: Bytes) returns (prefix: Bytes, name: Bytes)
    requires |h| == BLOCK && ReadHead(h).Ok?
    ensures IsHeader(h, prefix, name, ReadHead(h).value.size, h[156])
    ensures ReadHead(h).value.name == FullName(prefix, name) && (ReadHead(h).value.regular <==> RegularFlag(h[156]))
  {
    SumIsTheChecksum(h);
    prefix, name := Upto(h[345..500]), Upto(h[..100]);
    UptoHolds(h[345..500]);
    UptoHolds(h[..100]);
    OctalReadsExactly(h[148..156], Checksum(h));
    OctalReadsExactly(h[124..136], ReadHead(h).value.size);
  }

  // ---- the writer ------------------------------------------------------------------------------------------

  /** The bytes of a header that the scan does not read. */
  datatype Unread = Unread(owner: Bytes, time: Bytes, link: Bytes, spare: Bytes)

  predicate Writable(prefix: Bytes, name: Bytes, size: nat, u: Unread) {
    && |prefix| <= 155 && 0 !in prefix && Utf8(prefix) && |name| <= 100 && 0 !in name && Utf8(name) && size < SIZE_LIMIT
    && |u.owner| == 24 && |u.time| == 12 && |u.link| == 188 && |u.spare| == 12
  }

  function Before(name: Bytes, size: nat, u: Unread): Bytes
    requires |name| <= 100
  {
    (name + Nuls(100 - |name|)) + u.owner + (OctalDigits(size, 11) + [0]) + u.time
  }

  function Behind(prefix: Bytes, flag: Byte, u: Unread): Bytes
    requires |prefix| <= 155
  {
    [flag] + u.link + (prefix + Nuls(155 - |prefix|)) + u.spare
  }

  /** The checksum is taken with spaces in its own field. */
  function HeadBytes(prefix: Bytes, name: Bytes, size: nat, flag: Byte, u: Unread): (r: Bytes)
    requires Writable(prefix, name, size, u)
    ensures |r| == BLOCK
  {
    var a, b := Before(name, size, u), Behind(prefix, flag, u);
    a + (OctalDigits(Total(a) + 8 * ' ' as int + Total(b), 6) + [0, 32]) + b
  }

  lemma DigitsAreHeld(n: nat, k: nat, rest: Bytes)
    requires n < Pow8(k) && n < U64_LIMIT && rest != [] && rest[0] == 0
    ensures HoldsOctal(OctalDigits(n, k) + rest, n)
  {
    DigitsHaveValue(n, k);
    var w := Written([], [], OctalDigits(n, k), []);
    assert Spelled(w) == OctalDigits(n, k);
    assert HoldsNumber(OctalDigits(n, k) + rest, n, w);
  }

  /** Whatever the unread bytes, the writer's header is one. */
  lemma WrittenIsHeader(prefix: Bytes, name: Bytes, size: nat, flag: Byte, u: Unread)
    requires Writable(prefix, name, size, u)
    ensures IsHeader(HeadBytes(prefix, name, size, flag, u), prefix, name, size, flag)
    ensures
      var h := HeadBytes(prefix, name, size, flag, u);
      h[100..124] == u.owner && h[136..148] == u.time && h[157..345] == u.link && h[500..] == u.spare
  {
    var h, a, b := HeadBytes(prefix, name, size, flag, u), Before(name, size, u), Behind(prefix, flag, u);
    FrontInPlace(h, name, size, u);
    BackInPlace(h, prefix, flag, u);
    assert h[..148] == a && h[156..] == b;
    TotalIsSmall(a);
    TotalIsSmall(b);
    Powers();
    assert h[148..156] == OctalDigits(Checksum(h), 6) + [0, 32];
    DigitsAreHeld(Checksum(h), 6, [0, 32]);
    DigitsAreHeld(size, 11, [0]);
  }

  lemma FrontInPlace(h: Bytes, name: Bytes, size: nat, u: Unread)
    requires |h| == BLOCK && |name| <= 100 && 0 !in name && Utf8(name) && |u.owner| == 24 && |u.time| == 12
    requires h[..148] == Before(name, size, u)
    ensures HoldsText(h[..100], name) && h[124..136] == OctalDigits(size, 11) + [0]
    ensures h[100..124] == u.owner && h[136..148] == u.time
  {
    var a := Before(name, size, u);
    assert h[..100] == a[..100] == name + Nuls(100 - |name|);
    assert h[100..124] == a[100..124] && h[124..136] == a[124..136] && h[136..148] == a[136..148];
  }

  lemma BackInPlace(h: Bytes, prefix: Bytes, flag: Byte, u: Unread)
    requires |h| == BLOCK && |prefix| <= 155 && 0 !in prefix && Utf8(prefix) && |u.link| == 188 && |u.spare| == 12
    requires h[156..] == Behind(prefix, flag, u)
    ensures HoldsText(h[345..500], prefix) && h[156] == flag && h[157..345] == u.link && h[500..] == u.spare
  {
    var b := Behind(prefix, flag, u);
    assert h[345..500] == b[189..344] == prefix + Nuls(155 - |prefix|);
    assert h[156] == b[0] && h[157..345] == b[1..189] && h[500..] == b[344..];
  }

  /** A member as it lies in an archive: a header, data, and padding that is not read. */
  datatype Member = Member(head: Bytes, prefix: Bytes, name: Bytes, flag: Byte, data: Bytes, pad: Bytes)

  function Padding(n: nat): nat { Padded(n) - n }

  ghost predicate MemberOk(m: Member) {
    IsHeader(m.head, m.prefix, m.name, |m.data|, m.flag) && |m.pad| == Padding(|m.data|)
  }

  function MemberBytes(m: Member): Bytes { m.head + m.data + m.pad }

  function Body(ms: seq<Member>): Bytes {
    if ms == [] then [] else Body(ms[..|ms| - 1]) + MemberBytes(ms[|ms| - 1])
  }

  /** Members, a block of zeros, and whatever follows. */
  function Write(ms: seq<Member>, rest: Bytes): Bytes {
    Body(ms) + (Nuls(BLOCK) + rest)
  }

  // ---- archives read back -----------------------------------------------------------------------------------

  ghost predicate MembersOk(ms: seq<Member>) { forall i :: 0 <= i < |ms| ==> MemberOk(ms[i]) }

  function EntryOf(m: Member, at: nat): Entry {
    Entry(Head(FullName(m.prefix, m.name), |m.data|, RegularFlag(m.flag)), at + BLOCK)
  }

  function Entries(ms: seq<Member>): (r: seq<Entry>)
    requires MembersOk(ms)
    ensures |r| == |ms|
  {
    if ms == [] then []
    else Entries(ms[..|ms| - 1]) + [EntryOf(ms[|ms| - 1], |Body(ms[..|ms| - 1])|)]
  }

  lemma MemberLength(m: Member)
    requires MemberOk(m)
    ensures |MemberBytes(m)| == BLOCK + Padded(|m.data|)
    ensures MemberBytes(m)[..BLOCK] == m.head && MemberBytes(m)[BLOCK..BLOCK + |m.data|] == m.data
  {
  }

  lemma {:induction false} BodyPrefix(ms: seq<Member>, k: nat)
    requires MembersOk(ms) && k <= |ms|
    ensures Body(ms[..k]) <= Body(ms)
  {
    if k == |ms| {
      assert ms[..k] == ms;
    } else {
      BodyPrefix(ms[..|ms| - 1], k);
      assert ms[..|ms| - 1][..k] == ms[..k];
      PrefixTrans(Body(ms[..k]), Body(ms[..|ms| - 1]), MemberBytes(ms[|ms| - 1]));
    }
  }

  lemma {:induction false} EntriesPrefix(ms: seq<Member>, k: nat)
    requires MembersOk(ms) && k <= |ms|
    ensures Entries(ms)[..k] == Entries(ms[..k])
  {
    if k == |ms| {
      assert ms[..k] == ms;
    } else {
      EntriesPrefix(ms[..|ms| - 1], k);
      assert ms[..|ms| - 1][..k] == ms[..k];
    }
  }

  /** The next header follows the bytes written so far. */
  lemma EntriesEnd(ms: seq<Member>)
    requires MembersOk(ms)
    ensures After(Entries(ms)) == |Body(ms)|
  {
    if ms != [] { MemberLength(ms[|ms| - 1]); }
  }

  lemma PieceAt(t: Bytes, pre: Bytes, m: Bytes, lo: nat, hi: nat)
    requires pre + m <= t && lo <= hi <= |m|
    ensures t[|pre| + lo..|pre| + hi] == m[lo..hi]
  {
    assert t[..|pre + m|] == pre + m;
    assert forall k :: 0 <= k < |m| ==> t[|pre| + k] == (pre + m)[|pre| + k] == m[k];
  }

  lemma PrefixTrans(a: Bytes, b: Bytes, c: Bytes)
    requires a <= b
    ensures a <= b + c
  {
  }

  lemma EntryInPlace(ms: seq<Member>, i: nat)
    requires MembersOk(ms) && i < |ms|
    ensures Entries(ms)[i] == EntryOf(ms[i], |Body(ms[..i])|) && After(Entries(ms)[..i]) == |Body(ms[..i])|
  {
    EntriesPrefix(ms, i);
    EntriesPrefix(ms, i + 1);
    EntriesEnd(ms[..i]);
    assert ms[..i + 1][..i] == ms[..i];
    assert Entries(ms)[i] == Entries(ms)[..i + 1][i];
  }

  /** A written member lies in the archive where its entry says. */
  lemma MemberInPlace(ms: seq<Member>, rest: Bytes, i: nat)
    requires MembersOk(ms) && i < |ms|
    ensures Body(ms[..i]) + MemberBytes(ms[i]) <= Write(ms, rest)
  {
    BodyPrefix(ms, i + 1);
    assert ms[..i + 1][..i] == ms[..i];
    PrefixTrans(Body(ms[..i + 1]), Body(ms), Nuls(BLOCK) + rest);
  }

  lemma WrittenEntry(ms: seq<Member>, rest: Bytes, i: nat)
    requires MembersOk(ms) && i < |ms|
    ensures EntryAt(Write(ms, rest), After(Entries(ms)[..i]), Entries(ms)[i])
    ensures Slice(Write(ms, rest), Entries(ms)[i]) == ms[i].data
  {
    EntryInPlace(ms, i);
    MemberInPlace(ms, rest, i);
    EntryIn(Write(ms, rest), Body(ms[..i]), ms[i]);
  }

  lemma EntryIn(tar: Bytes, pre: Bytes, m: Member)
    requires MemberOk(m) && pre + MemberBytes(m) <= tar
    ensures EntryAt(tar, |pre|, EntryOf(m, |pre|)) && Slice(tar, EntryOf(m, |pre|)) == m.data
  {
    MemberLength(m);
    HeadIn(tar, pre, m);
    PieceAt(tar, pre, MemberBytes(m), BLOCK, BLOCK + |m.data|);
  }

  lemma HeadIn(tar: Bytes, pre: Bytes, m: Member)
    requires MemberOk(m) && pre + MemberBytes(m) <= tar
    ensures |pre| + BLOCK + |m.data| <= |tar| && EntryAt(tar, |pre|, EntryOf(m, |pre|))
  {
    MemberLength(m);
    PieceAt(tar, pre, MemberBytes(m), 0, BLOCK);
    assert tar[|pre|..|pre| + BLOCK] == m.head;
    HeaderReadsBack(m.head, m.prefix, m.name, |m.data|, m.flag);
  }

  lemma EndsInZeros(b: Bytes, rest: Bytes)
    ensures (b + (Nuls(BLOCK) + rest))[|b|..|b| + BLOCK] == Zeros()
  {
    var end := (b + (Nuls(BLOCK) + rest))[|b|..|b| + BLOCK];
    assert forall i :: 0 <= i < BLOCK ==> end[i] == 0;
  }

  /** A written archive is a layout of its members' entries. */
  lemma WrittenIsLayout(ms: seq<Member>, rest: Bytes)
    requires MembersOk(ms)
    ensures Layout(Write(ms, rest), Entries(ms)) && Within(Write(ms, rest), Entries(ms))
  {
    forall i | 0 <= i < |ms| ensures EntryAt(Write(ms, rest), After(Entries(ms)[..i]), Entries(ms)[i]) {
      WrittenEntry(ms, rest, i);
    }
    EntriesEnd(ms);
    EndsInZeros(Body(ms), rest);
    ChainFits(Write(ms, rest), Entries(ms));
  }

  /** A regular member of that full name, and the policy selects the name. */
  predicate Picks(m: Member, p: Policy, name: Bytes) {
    RegularFlag(m.flag) && FullName(m.prefix, m.name) == name && p.select(name)
  }

  lemma EntryPicks(ms: seq<Member>, p: Policy, name: Bytes, i: nat)
    requires MembersOk(ms) && i < |ms|
    ensures Picks(ms[i], p, name) <==> Wanted(p, Entries(ms)[i]) && Entries(ms)[i].head.name == name
  {
    EntryInPlace(ms, i);
  }

  lemma TakenIsPicked(ms: seq<Member>, p: Policy, name: Bytes)
    requires MembersOk(ms)
    ensures Taken(Entries(ms), p, name) <==> exists i :: 0 <= i < |ms| && Picks(ms[i], p, name)
  {
    var es := Entries(ms);
    forall i | 0 <= i < |ms| ensures Picks(ms[i], p, name) <==> Wanted(p, es[i]) && es[i].head.name == name {
      EntryPicks(ms, p, name, i);
    }
  }

  /** For every archive of ustar members whose selected names are distinct and within the caps, what
      the scan returns is exactly the selected members, each with its own data. */
  lemma ReadsBackWhatWasWritten(ms: seq<Member>, rest: Bytes, p: Policy, name: Bytes)
    requires MembersOk(ms) && Acceptable(Entries(ms), p)
    ensures Readable(Write(ms, rest), p, Entries(ms)) && Within(Write(ms, rest), Entries(ms))
    ensures name in Files(Write(ms, rest), Entries(ms), p) <==> exists i :: 0 <= i < |ms| && Picks(ms[i], p, name)
    ensures forall i :: 0 <= i < |ms| && Picks(ms[i], p, name) ==>
      Files(Write(ms, rest), Entries(ms), p)[name] == ms[i].data
  {
    WrittenIsLayout(ms, rest);
    FilesAreTheSelectedSlices(Write(ms, rest), Entries(ms), p, name);
    TakenIsPicked(ms, p, name);
    forall i | 0 <= i < |ms| && Picks(ms[i], p, name)
      ensures Files(Write(ms, rest), Entries(ms), p)[name] == ms[i].data
    {
      EntryPicks(ms, p, name, i);
      WrittenEntry(ms, rest, i);
    }
  }
}
