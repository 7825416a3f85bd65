/** The texts the envelopes are built from, as UTF-8 bytes: tokens, graph ids, content ids,
    canonical timestamps and lines. */
module Text {
  import opened Wire

  predicate Tail(b: Byte) { 0x80 <= b < 0xC0 }

  /** Well-formed UTF-8 (RFC 3629, section 4). */
  predicate Utf8(s: Bytes) {
    s == [] ||
    var a := s[0];
    if a < 0x80 then Utf8(s[1..])
    else if 0xC2 <= a < 0xE0 then |s| >= 2 && Tail(s[1]) && Utf8(s[2..])
    else if 0xE0 <= a < 0xF0 then
      && |s| >= 3 && Tail(s[1]) && Tail(s[2])
      && (a == 0xE0 ==> s[1] >= 0xA0) && (a == 0xED ==> s[1] < 0xA0)
      && Utf8(s[3..])
    else if 0xF0 <= a < 0xF5 then
      && |s| >= 4 && Tail(s[1]) && Tail(s[2]) && Tail(s[3])
      && (a == 0xF0 ==> s[1] >= 0x90) && (a == 0xF4 ==> s[1] < 0x90)
      && Utf8(s[4..])
    else false
  }

  /** A control character: U+0000 to U+001F, U+007F to U+009F. */
  predicate HasControl(s: Bytes) { exists i :: 0 <= i < |s| && ControlAt(s, i) }

  predicate ControlAt(s: Bytes, i: nat)
    requires i < |s|
  {
    s[i] < 0x20 || s[i] == 0x7F || (s[i] == 0xC2 && i + 1 < |s| && s[i + 1] < 0xA0)
  }

  predicate Token(s: Bytes, max: nat) {
    s != [] && |s| <= max && Utf8(s) && !HasControl(s)
  }

  predicate Alphanumeric(b: Byte) {
    48 <= b < 58 || 65 <= b < 91 || 97 <= b < 123
  }

  const MAX_IDENTIFIER := 512
  const MAX_GRAPH_ID := 128

  predicate GraphId(s: Bytes) {
    Token(s, MAX_GRAPH_ID) && forall i :: 0 <= i < |s| ==> Alphanumeric(s[i]) || s[i] in [46, 95, 58, 45]
  }

  /** `sha256:` and 64 lowercase hexadecimal digits. */
  predicate ContentId(s: Bytes) {
    && |s| == 71 && s[..7] == Ascii("sha256:")
    && forall i :: 7 <= i < 71 ==> 48 <= s[i] < 58 || 97 <= s[i] < 103
  }

  predicate Digits(s: Bytes) { forall i :: 0 <= i < |s| ==> 48 <= s[i] < 58 }

  function Number(s: Bytes): nat
    requires Digits(s)
  {
    if s == [] then 0 else Number(s[..|s| - 1]) * 10 + (s[|s| - 1] as int - 48)
  }

  /** Decimal digits without leading zeros. */
  function DigitsOf(n: nat): Bytes {
    if n < 10 then [48 + n] else DigitsOf(n / 10) + [48 + n % 10]
  }

  lemma {:induction false} DigitsRoundTrip(n: nat)
    ensures DigitsOf(n) != [] && Digits(DigitsOf(n)) && Number(DigitsOf(n)) == n
  {
    var d := DigitsOf(n);
    if n < 10 {
      assert d[..0] == [];
    } else {
      DigitsRoundTrip(n / 10);
      assert d[..|d| - 1] == DigitsOf(n / 10);
    }
  }

  /** A decimal numeral: digits without a leading zero. */
  predicate IsDecimal(x: Bytes, n: nat) {
    x != [] && Digits(x) && Number(x) == n && (|x| > 1 ==> x[0] != '0' as int)
  }

  lemma {:induction false} NoLeadingZero(n: nat)
    ensures IsDecimal(DigitsOf(n), n)
    ensures n > 0 ==> DigitsOf(n)[0] != '0' as int
  {
    DigitsRoundTrip(n);
    if n >= 10 { NoLeadingZero(n / 10); }
  }

  lemma {:induction false} DecimalIsUnique(x: Bytes, y: Bytes, n: nat)
    requires IsDecimal(x, n) && IsDecimal(y, n)
    ensures x == y
    decreases n
  {
    var a, b := x[..|x| - 1], y[..|y| - 1];
    assert x == a + [x[|x| - 1]] && y == b + [y[|y| - 1]];
    assert n == Number(a) * 10 + (x[|x| - 1] as int - 48) == Number(b) * 10 + (y[|y| - 1] as int - 48);
    if n < 10 {
      OneDigit(x, n);
      OneDigit(y, n);
    } else {
      assert a != [] && b != [] && a[0] == x[0] && b[0] == y[0];
      DecimalIsUnique(a, b, n / 10);
    }
  }

  lemma {:induction false} Positive(x: Bytes)
    requires x != [] && Digits(x) && x[0] != '0' as int
    ensures Number(x) > 0
  {
    var a := x[..|x| - 1];
    if a != [] { Positive(a); }
  }

  lemma OneDigit(x: Bytes, n: nat)
    requires IsDecimal(x, n) && n < 10
    ensures |x| == 1
  {
    if |x| > 1 { Positive(x[..|x| - 1]); }
  }

  lemma DigitsOfExactly(x: Bytes, n: nat)
    ensures IsDecimal(x, n) <==> x == DigitsOf(n)
  {
    NoLeadingZero(n);
    if IsDecimal(x, n) { DecimalIsUnique(x, DigitsOf(n), n); }
  }

  function DaysIn(year: nat, month: nat): nat {
    if month == 2 then (if year % 4 == 0 && (year % 100 != 0 || year % 400 == 0) then 29 else 28)
    else if month in [4, 6, 9, 11] then 30
    else 31
  }

  /** `YYYY-MM-DDTHH:MM:SS.ffffffZ`, a date of the proleptic Gregorian calendar in years 1 to 9999. */
  predicate CanonicalTime(s: Bytes) {
    && |s| == 27
    && s[4] == 45 && s[7] == 45 && s[10] == 84 && s[13] == 58 && s[16] == 58 && s[19] == 46 && s[26] == 90
    && Digits(s[..4]) && Digits(s[5..7]) && Digits(s[8..10]) && Digits(s[11..13]) && Digits(s[14..16])
    && Digits(s[17..19]) && Digits(s[20..26])
    && Number(s[..4]) >= 1 && 1 <= Number(s[5..7]) <= 12
    && 1 <= Number(s[8..10]) <= DaysIn(Number(s[..4]), Number(s[5..7]))
    && Number(s[11..13]) < 24 && Number(s[14..16]) < 60 && Number(s[17..19]) < 60
  }

  lemma {:induction false} AsciiIsUtf8(s: Bytes)
    requires forall i :: 0 <= i < |s| ==> s[i] < 0x80
    ensures Utf8(s)
  {
    if s != [] { AsciiIsUtf8(s[1..]); }
  }

  // ---- lines ------------------------------------------------------------------------------

  const LF: Byte := 10

  function IndexOf(t: Bytes, b: Byte): (k: nat)
    requires b in t
    ensures k < |t| && t[k] == b && b !in t[..k]
  {
    if t[0] == b then 0 else 1 + IndexOf(t[1..], b)
  }

  lemma IndexAfter(x: Bytes, b: Byte, rest: Bytes)
    requires b !in x
    ensures b in x + [b] + rest && IndexOf(x + [b] + rest, b) == |x|
    ensures (x + [b] + rest)[..|x|] == x && (x + [b] + rest)[|x| + 1..] == rest
  {
    var t := x + [b] + rest;
    assert t[|x|] == b;
    assert forall i :: 0 <= i < |x| ==> t[i] == x[i];
  }

  function Unlines(ls: seq<Bytes>): Bytes {
    if ls == [] then [] else ls[0] + [LF] + Unlines(ls[1..])
  }

  predicate FeedFree(ls: seq<Bytes>) { forall i :: 0 <= i < |ls| ==> LF !in ls[i] }
}
