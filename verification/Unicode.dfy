/** What the byte tests of module Text mean: well-formed UTF-8 is the encoding of a sequence of
    Unicode scalar values, a control character is one of those values, and a canonical timestamp is
    the fixed-width rendering of a civil time. */
module Unicode {
  import opened Wire
  import opened Text

  // ---- scalar values ----------------------------------------------------------------------------

  predicate Scalar(n: nat) { n < 0xD800 || 0xE000 <= n < 0x11_0000 }

  predicate Control(n: nat) { n < 0x20 || 0x7F <= n < 0xA0 }

  /** The encoding of one scalar value (RFC 3629, section 3). */
  function Unit(n: nat): Bytes
    requires Scalar(n)
  {
    if n < 0x80 then [n]
    else if n < 0x800 then [0xC0 + n / 0x40, 0x80 + n % 0x40]
    else if n < 0x1_0000 then [0xE0 + n / 0x1000, 0x80 + n / 0x40 % 0x40, 0x80 + n % 0x40]
    else [0xF0 + n / 0x4_0000, 0x80 + n / 0x1000 % 0x40, 0x80 + n / 0x40 % 0x40, 0x80 + n % 0x40]
  }

  predicate Scalars(ns: seq<nat>) { forall i :: 0 <= i < |ns| ==> Scalar(ns[i]) }

  function Encoded(ns: seq<nat>): Bytes
    requires Scalars(ns)
  {
    if ns == [] then [] else Unit(ns[0]) + Encoded(ns[1..])
  }

  lemma UnitIsUtf8(n: nat, rest: Bytes)
    requires Scalar(n)
    ensures Utf8(Unit(n) + rest) <==> Utf8(rest)
  {
    var s := Unit(n) + rest;
    assert s[|Unit(n)|..] == rest;
  }

  lemma {:induction false} EncodedIsUtf8(ns: seq<nat>)
    requires Scalars(ns)
    ensures Utf8(Encoded(ns))
  {
    if ns != [] {
      EncodedIsUtf8(ns[1..]);
      UnitIsUtf8(ns[0], Encoded(ns[1..]));
    }
  }

  lemma TwoBytes(a: Byte, b: Byte)
    requires 0xC2 <= a < 0xE0 && Tail(b)
    ensures
      var n := (a as int - 0xC0) * 0x40 + (b as int - 0x80);
      Scalar(n) && Unit(n) == [a, b]
  {
  }

  lemma ThreeBytes(a: Byte, b: Byte, c: Byte)
    requires 0xE0 <= a < 0xF0 && Tail(b) && Tail(c) && (a == 0xE0 ==> b >= 0xA0) && (a == 0xED ==> b < 0xA0)
    ensures
      var n := (a as int - 0xE0) * 0x1000 + (b as int - 0x80) * 0x40 + (c as int - 0x80);
      Scalar(n) && Unit(n) == [a, b, c]
  {
    var n := (a as int - 0xE0) * 0x1000 + (b as int - 0x80) * 0x40 + (c as int - 0x80);
    assert n / 0x40 == (a as int - 0xE0) * 0x40 + (b as int - 0x80) && n / 0x1000 == a as int - 0xE0;
  }

  lemma FourBytes(a: Byte, b: Byte, c: Byte, d: Byte)
    requires 0xF0 <= a < 0xF5 && Tail(b) && Tail(c) && Tail(d) && (a == 0xF0 ==> b >= 0x90) && (a == 0xF4 ==> b < 0x90)
    ensures
      var n := (a as int - 0xF0) * 0x4_0000 + (b as int - 0x80) * 0x1000 + (c as int - 0x80) * 0x40 + (d as int - 0x80);
      Scalar(n) && Unit(n) == [a, b, c, d]
  {
    var p, q, r := a as int - 0xF0, b as int - 0x80, c as int - 0x80;
    var n := p * 0x4_0000 + q * 0x1000 + r * 0x40 + (d as int - 0x80);
    assert n / 0x40 == p * 0x1000 + q * 0x40 + r && n / 0x1000 == p * 0x40 + q && n / 0x4_0000 == p;
  }

  /** The scalar value a non-empty UTF-8 text starts with. */
  lemma FirstScalar(s: Bytes) returns (n: nat)
    requires s != [] && Utf8(s)
    ensures Scalar(n) && |Unit(n)| <= |s| && s[..|Unit(n)|] == Unit(n) && Utf8(s[|Unit(n)|..])
  {
    var a := s[0];
    if a < 0x80 {
      n := a;
    } else if a < 0xE0 {
      n := (a as int - 0xC0) * 0x40 + (s[1] as int - 0x80);
      TwoBytes(a, s[1]);
    } else if a < 0xF0 {
      n := (a as int - 0xE0) * 0x1000 + (s[1] as int - 0x80) * 0x40 + (s[2] as int - 0x80);
      ThreeBytes(a, s[1], s[2]);
    } else {
      n := (a as int - 0xF0) * 0x4_0000 + (s[1] as int - 0x80) * 0x1000 + (s[2] as int - 0x80) * 0x40
        + (s[3] as int - 0x80);
      FourBytes(a, s[1], s[2], s[3]);
    }
  }

  lemma {:induction false} Decode(s: Bytes) returns (ns: seq<nat>)
    requires Utf8(s)
    ensures Scalars(ns) && Encoded(ns) == s
  {
    if s == [] {
      ns := [];
    } else {
      var n := FirstScalar(s);
      var rest := Decode(s[|Unit(n)|..]);
      ns := [n] + rest;
      assert ns[1..] == rest && s == s[..|Unit(n)|] + s[|Unit(n)|..];
    }
  }

  ghost predicate EncodesSome(s: Bytes) {
    exists ns :: Scalars(ns) && Encoded(ns) == s
  }

  /** Exactly the encodings of scalar values are well formed: no surrogates, no overlong forms,
      nothing beyond U+10FFFF. */
  lemma Utf8IsScalarValues(s: Bytes)
    ensures Utf8(s) <==> EncodesSome(s)
  {
    if Utf8(s) { var ns := Decode(s); }
    if EncodesSome(s) {
      var ns :| Scalars(ns) && Encoded(ns) == s;
      EncodedIsUtf8(ns);
    }
  }

  // ---- control characters -----------------------------------------------------------------------

  lemma UnitControl(n: nat, rest: Bytes)
    requires Scalar(n)
    ensures Control(n) <==> exists i :: 0 <= i < |Unit(n)| && ControlAt(Unit(n) + rest, i)
  {
    var s := Unit(n) + rest;
    assert forall i :: 0 <= i < |Unit(n)| ==> s[i] == Unit(n)[i];
    if Control(n) { assert ControlAt(s, 0); }
  }

  lemma ControlSplits(u: Bytes, rest: Bytes)
    ensures HasControl(u + rest) <==> (exists i :: 0 <= i < |u| && ControlAt(u + rest, i)) || HasControl(rest)
  {
    var s := u + rest;
    assert forall i :: 0 <= i < |rest| ==> s[|u| + i] == rest[i];
    if HasControl(rest) {
      var i :| 0 <= i < |rest| && ControlAt(rest, i);
      assert ControlAt(s, |u| + i);
    }
    if HasControl(s) {
      var i :| 0 <= i < |s| && ControlAt(s, i);
      if i >= |u| { assert ControlAt(rest, i - |u|); }
    }
  }

  /** A text has a control character exactly when one of its scalar values is U+0000 to U+001F or
      U+007F to U+009F. */
  lemma {:induction false} ControlIsAScalar(ns: seq<nat>)
    requires Scalars(ns)
    ensures HasControl(Encoded(ns)) <==> exists i :: 0 <= i < |ns| && Control(ns[i])
  {
    if ns != [] {
      var rest := Encoded(ns[1..]);
      ControlIsAScalar(ns[1..]);
      UnitControl(ns[0], rest);
      ControlSplits(Unit(ns[0]), rest);
      if i :| 0 <= i < |ns[1..]| && Control(ns[1..][i]) { assert Control(ns[i + 1]); }
      if i :| 0 < i < |ns| && Control(ns[i]) { assert Control(ns[1..][i - 1]); }
    }
  }

  // ---- timestamps -------------------------------------------------------------------------------

  datatype Civil = Civil(year: nat, month: nat, day: nat, hour: nat, minute: nat, second: nat, micros: nat)

  /** A time of the proleptic Gregorian calendar, years 1 to 9999, without leap seconds. */
  predicate Real(t: Civil) {
    && 1 <= t.year <= 9999 && 1 <= t.month <= 12 && 1 <= t.day <= DaysIn(t.year, t.month)
    && t.hour < 24 && t.minute < 60 && t.second < 60 && t.micros < 1000000
  }

  /** Exactly `k` decimal digits. */
  function Wide(n: nat, k: nat): (r: Bytes)
    ensures |r| == k
  {
    if k == 0 then [] else Wide(n / 10, k - 1) + [48 + n % 10]
  }

  function Pow10(k: nat): nat { if k == 0 then 1 else 10 * Pow10(k - 1) }

  lemma {:induction false} WideHasValue(n: nat, k: nat)
    requires n < Pow10(k)
    ensures Digits(Wide(n, k)) && Number(Wide(n, k)) == n
  {
    if k > 0 {
      WideHasValue(n / 10, k - 1);
      var d := Wide(n, k);
      assert d[..|d| - 1] == Wide(n / 10, k - 1);
    }
  }

  lemma {:induction false} ValueHasWidth(s: Bytes)
    requires Digits(s)
    ensures Number(s) < Pow10(|s|) && s == Wide(Number(s), |s|)
  {
    if s != [] {
      var d := s[..|s| - 1];
      ValueHasWidth(d);
      assert s == d + [s[|s| - 1]];
    }
  }

  /** `YYYY-MM-DDTHH:MM:SS.ffffffZ`. */
  function Rendered(t: Civil): Bytes {
    Wide(t.year, 4) + ['-' as int] + Wide(t.month, 2) + ['-' as int] + Wide(t.day, 2) + ['T' as int]
    + Wide(t.hour, 2) + [':' as int] + Wide(t.minute, 2) + [':' as int] + Wide(t.second, 2) + ['.' as int]
    + Wide(t.micros, 6) + ['Z' as int]
  }

  function Read(s: Bytes): Civil
    requires CanonicalTime(s)
  {
    Civil(Number(s[..4]), Number(s[5..7]), Number(s[8..10]), Number(s[11..13]), Number(s[14..16]), Number(s[17..19]),
          Number(s[20..26]))
  }

  lemma Powers()
    ensures Pow10(2) == 100 && Pow10(4) == 10000 && Pow10(6) == 1000000
  {
    assert Pow10(2) == 10 * Pow10(1) && Pow10(4) == 100 * Pow10(2) && Pow10(6) == 100 * Pow10(4);
  }

  /** Where the fields of a rendered time lie. */
  lemma RenderedFields(t: Civil)
    ensures
      var s := Rendered(t);
      && |s| == 27 && s[..4] == Wide(t.year, 4) && s[5..7] == Wide(t.month, 2) && s[8..10] == Wide(t.day, 2)
      && s[11..13] == Wide(t.hour, 2) && s[14..16] == Wide(t.minute, 2) && s[17..19] == Wide(t.second, 2)
      && s[20..26] == Wide(t.micros, 6)
  {
  }

  lemma RealHasValues(t: Civil)
    requires Real(t)
    ensures CanonicalTime(Rendered(t)) && Read(Rendered(t)) == t
  {
    Powers();
    RenderedFields(t);
    WideHasValue(t.year, 4);
    WideHasValue(t.month, 2);
    WideHasValue(t.day, 2);
    WideHasValue(t.hour, 2);
    WideHasValue(t.minute, 2);
    WideHasValue(t.second, 2);
    WideHasValue(t.micros, 6);
  }

  lemma ReadIsReal(s: Bytes)
    requires CanonicalTime(s)
    ensures Real(Read(s)) && Rendered(Read(s)) == s
  {
    Powers();
    ValueHasWidth(s[..4]);
    ValueHasWidth(s[5..7]);
    ValueHasWidth(s[8..10]);
    ValueHasWidth(s[11..13]);
    ValueHasWidth(s[14..16]);
    ValueHasWidth(s[17..19]);
    ValueHasWidth(s[20..26]);
  }

  /** The canonical timestamps are exactly the renderings of real times, each of one time. */
  lemma CanonicalTimesAreRealTimes(s: Bytes)
    ensures CanonicalTime(s) <==> exists t :: Real(t) && Rendered(t) == s
    ensures forall t, u :: Real(t) && Real(u) && Rendered(t) == s && Rendered(u) == s ==> t == u
  {
    if CanonicalTime(s) { ReadIsReal(s); }
    forall t | Real(t) ensures CanonicalTime(Rendered(t)) && Read(Rendered(t)) == t { RealHasValues(t); }
  }

  // ---- the calendar -----------------------------------------------------------------------------

  predicate Leap(year: nat) { year % 400 == 0 || (year % 4 == 0 && year % 100 != 0) }

  function DaysBefore(year: nat, month: nat): nat
    requires 1 <= month <= 13
  {
    if month == 1 then 0 else DaysBefore(year, month - 1) + DaysIn(year, month - 1)
  }

  /** The months of a year have 365 days together, 366 in a leap year. */
  lemma MonthsMakeAYear(year: nat)
    ensures DaysBefore(year, 13) == if Leap(year) then 366 else 365
  {
    assert DaysBefore(year, 2) == 31 && DaysBefore(year, 3) == DaysBefore(year, 2) + DaysIn(year, 2);
    assert DaysBefore(year, 4) == DaysBefore(year, 3) + 31 && DaysBefore(year, 5) == DaysBefore(year, 4) + 30;
    assert DaysBefore(year, 6) == DaysBefore(year, 5) + 31 && DaysBefore(year, 7) == DaysBefore(year, 6) + 30;
    assert DaysBefore(year, 8) == DaysBefore(year, 7) + 31 && DaysBefore(year, 9) == DaysBefore(year, 8) + 31;
    assert DaysBefore(year, 10) == DaysBefore(year, 9) + 30 && DaysBefore(year, 11) == DaysBefore(year, 10) + 31;
    assert DaysBefore(year, 12) == DaysBefore(year, 11) + 30 && DaysBefore(year, 13) == DaysBefore(year, 12) + 31;
  }
}
