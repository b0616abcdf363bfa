/** String conversions the view layer relies on: JavaScript's decimal
    rendering of integers (template literals, `toString`), `toFixed(1)` of
    an integer count of tenths, `String.prototype.trim`, and the "array
    index" test that decides property order in `Object.keys`. */
module Text {
  import opened Common

  predicate IsDigit(c: char) {
    '0' <= c <= '9'
  }

  predicate AllDigits(s: string) {
    forall i :: 0 <= i < |s| ==> IsDigit(s[i])
  }

  function DigitChar(d: nat): (c: char)
    requires d < 10
    ensures IsDigit(c)
  {
    ('0' as int + d) as char
  }

  function DigitValue(c: char): (d: nat)
    requires IsDigit(c)
    ensures d < 10
  {
    c as int - '0' as int
  }

  lemma DigitRoundTrip(d: nat)
    requires d < 10
    ensures DigitValue(DigitChar(d)) == d
  {
  }

  /** A digit string without a superfluous leading zero. */
  predicate Canonical(s: string) {
    |s| >= 1 && AllDigits(s) && (s[0] == '0' ==> |s| == 1)
  }

  /** Decimal rendering of a natural number, most significant digit first. */
  function NatToString(n: nat): (s: string)
    ensures Canonical(s)
    decreases n
  {
    if n < 10 then [DigitChar(n)]
    else NatToString(n / 10) + [DigitChar(n % 10)]
  }

  /** The value of a digit string. */
  function ParseDigits(s: string): nat
    requires AllDigits(s)
  {
    if |s| == 0 then 0
    else ParseDigits(s[..|s| - 1]) * 10 + DigitValue(s[|s| - 1])
  }

  /** Parsing undoes printing. */
  lemma {:induction false} ParseNatToString(n: nat)
    ensures ParseDigits(NatToString(n)) == n
    decreases n
  {
    if n >= 10 {
      var s := NatToString(n);
      assert s[..|s| - 1] == NatToString(n / 10);
      ParseNatToString(n / 10);
    }
  }

  /** A digit string whose first digit is not zero has a positive value. */
  lemma {:induction false} ParsePositive(s: string)
    requires AllDigits(s) && |s| >= 1 && s[0] != '0'
    ensures ParseDigits(s) >= 1
  {
    if |s| == 1 {
      assert s[..0] == [];
    } else {
      ParsePositive(s[..|s| - 1]);
    }
  }

  /** Printing undoes parsing, for canonical digit strings: the canonical
      strings are exactly the printed naturals. */
  lemma {:induction false} NatToStringParse(s: string)
    requires Canonical(s)
    ensures NatToString(ParseDigits(s)) == s
  {
    var n := ParseDigits(s);
    if |s| == 1 {
      assert s[..0] == [];
    } else {
      var init := s[..|s| - 1];
      assert init[0] == s[0];
      ParsePositive(init);
      assert Canonical(init);
      NatToStringParse(init);
      assert n / 10 == ParseDigits(init);
      assert DigitChar(n % 10) == s[|s| - 1];
      assert s == init + [s[|s| - 1]];
    }
  }

  /** `String(n)` for an integer: a minus sign, then the magnitude. */
  function IntToString(i: int): (s: string)
    ensures |s| >= 1
    ensures i < 0 <==> s[0] == '-'
  {
    if i < 0 then "-" + NatToString(-i) else NatToString(i)
  }

  /** A number with an explicit "+" when positive, as in
      `${d > 0 ? '+' : ''}${d}`. */
  function Signed(d: int): (s: string)
    ensures |s| >= 1
    ensures s[0] == '+' <==> d > 0
    ensures s[0] == '-' <==> d < 0
  {
    var t := IntToString(d);
    assert d >= 0 ==> IsDigit(t[0]);
    (if d > 0 then "+" else "") + t
  }

  /** Reads back an optionally signed decimal integer. */
  function ParseSigned(s: string): Option<int> {
    if |s| >= 2 && (s[0] == '+' || s[0] == '-') && AllDigits(s[1..]) then
      var magnitude: int := ParseDigits(s[1..]);
      Some(if s[0] == '-' then -magnitude else magnitude)
    else if |s| >= 1 && AllDigits(s) then Some(ParseDigits(s))
    else None
  }

  /** A sign followed by digits reads back as the signed value of the digits. */
  lemma ParseSignedSign(sign: char, t: string)
    requires sign == '+' || sign == '-'
    requires |t| >= 1 && AllDigits(t)
    ensures ParseSigned([sign] + t).Some?
    ensures ParseSigned([sign] + t).value == if sign == '-' then -(ParseDigits(t) as int) else ParseDigits(t) as int
  {
    assert ([sign] + t)[1..] == t;
  }

  lemma SignedRoundTripPositive(d: int)
    requires d > 0
    ensures ParseSigned(Signed(d)) == Some(d)
  {
    ParseNatToString(d);
    ParseSignedSign('+', NatToString(d));
    assert Signed(d) == ['+'] + NatToString(d);
  }

  lemma SignedRoundTripNegative(d: int)
    requires d < 0
    ensures ParseSigned(Signed(d)) == Some(d)
  {
    ParseNatToString(-d);
    ParseSignedSign('-', NatToString(-d));
    assert Signed(d) == ['-'] + NatToString(-d);
  }

  /** The signed rendering can be read back exactly. */
  lemma SignedRoundTrip(d: int)
    ensures ParseSigned(Signed(d)) == Some(d)
  {
    if d > 0 {
      SignedRoundTripPositive(d);
    } else if d < 0 {
      SignedRoundTripNegative(d);
    } else {
      SignedRoundTripZero();
    }
  }

  lemma SignedRoundTripZero()
    ensures ParseSigned(Signed(0)) == Some(0)
  {
    var t := NatToString(0);
    ParseNatToString(0);
    assert Signed(0) == t;
    assert |t| == 1 && AllDigits(t);
  }

  /** `(n / 10).toFixed(1)` for an integer count `n` of tenths: the sign, the
      whole part, a point and the tenths digit. */
  function FormatTenths(n: int): string {
    var m := if n < 0 then -n else n;
    (if n < 0 then "-" else "") + NatToString(m / 10) + "." + [DigitChar(m % 10)]
  }

  /** Reads back a string of the shape `FormatTenths` writes. */
  function ParseTenths(s: string): Option<int> {
    if |s| >= 3 && s[|s| - 2] == '.' && IsDigit(s[|s| - 1]) then
      var negative := s[0] == '-';
      var whole := if negative then s[1..|s| - 2] else s[..|s| - 2];
      if |whole| >= 1 && AllDigits(whole) then
        var v := ParseDigits(whole) * 10 + DigitValue(s[|s| - 1]);
        Some(if negative then -v else v)
      else None
    else None
  }

  /** The digits before the point read back as the whole part. */
  lemma WholePart(m: nat)
    ensures var w := NatToString(m / 10);
      |w| >= 1 && AllDigits(w) && ParseDigits(w) * 10 + DigitValue(DigitChar(m % 10)) == m
  {
    ParseNatToString(m / 10);
  }

  lemma FormatTenthsNonNegative(n: int)
    requires n >= 0
    ensures ParseTenths(FormatTenths(n)) == Some(n)
  {
    var w := NatToString(n / 10);
    var s := FormatTenths(n);
    WholePart(n);
    assert s == w + ['.', DigitChar(n % 10)];
    assert s[..|s| - 2] == w;
    assert s[0] == w[0];
  }

  lemma FormatTenthsNegative(n: int)
    requires n < 0
    ensures ParseTenths(FormatTenths(n)) == Some(n)
  {
    var w := NatToString(-n / 10);
    var s := FormatTenths(n);
    WholePart(-n);
    assert s == ['-'] + w + ['.', DigitChar(-n % 10)];
    assert s[1..|s| - 2] == w;
  }

  /** The tenths rendering is faithful: it can be read back exactly. */
  lemma FormatTenthsRoundTrip(n: int)
    ensures ParseTenths(FormatTenths(n)) == Some(n)
  {
    if n < 0 {
      FormatTenthsNegative(n);
    } else {
      FormatTenthsNonNegative(n);
    }
  }

  /** A sum of money held in tenths of a million pounds, shown as
      `£${(tenths / 10).toFixed(1)}m`. */
  function Money(tenths: int): (s: string)
    ensures |s| >= 2 && s[0] == '£' && s[|s| - 1] == 'm'
    ensures ParseTenths(s[1..|s| - 1]) == Some(tenths)
  {
    var s := "£" + FormatTenths(tenths) + "m";
    assert s[1..|s| - 1] == FormatTenths(tenths);
    FormatTenthsRoundTrip(tenths);
    s
  }

  /** The characters `String.prototype.trim` removes: the ECMAScript
      WhiteSpace and LineTerminator code points. */
  predicate IsJsSpace(c: char) {
    var u := c as int;
    || u == 0x09 || u == 0x0A || u == 0x0B || u == 0x0C || u == 0x0D || u == 0x20
    || u == 0xA0 || u == 0x1680 || (0x2000 <= u <= 0x200A)
    || u == 0x2028 || u == 0x2029 || u == 0x202F || u == 0x205F || u == 0x3000 || u == 0xFEFF
  }

  /** Number of leading white-space characters. */
  function LeadingSpaces(s: string): (k: nat)
    ensures k <= |s|
    ensures forall i :: 0 <= i < k ==> IsJsSpace(s[i])
    ensures k < |s| ==> !IsJsSpace(s[k])
  {
    if |s| == 0 || !IsJsSpace(s[0]) then 0 else 1 + LeadingSpaces(s[1..])
  }

  /** Number of trailing white-space characters. */
  function TrailingSpaces(s: string): (k: nat)
    ensures k <= |s|
    ensures forall i :: |s| - k <= i < |s| ==> IsJsSpace(s[i])
    ensures k < |s| ==> !IsJsSpace(s[|s| - k - 1])
  {
    if |s| == 0 || !IsJsSpace(s[|s| - 1]) then 0
    else
      var k := TrailingSpaces(s[..|s| - 1]);
      assert forall i :: 0 <= i < |s| - 1 ==> s[..|s| - 1][i] == s[i];
      1 + k
  }

  /** `String.prototype.trim`: the part of `s` between its leading and
      trailing white space. */
  function Trim(s: string): (r: string)
    ensures |r| == 0 || (!IsJsSpace(r[0]) && !IsJsSpace(r[|r| - 1]))
  {
    var a := LeadingSpaces(s);
    var b := TrailingSpaces(s[a..]);
    s[a..|s| - b]
  }

  /** What `trim` removes is white space, at both ends only. */
  lemma TrimIsSlice(s: string)
    ensures exists i, j :: 0 <= i <= j <= |s| && Trim(s) == s[i..j] &&
                          (forall k :: 0 <= k < i ==> IsJsSpace(s[k])) &&
                          (forall k :: j <= k < |s| ==> IsJsSpace(s[k]))
  {
    var a := LeadingSpaces(s);
    var rest := s[a..];
    var b := TrailingSpaces(rest);
    assert forall k :: |s| - b <= k < |s| ==> s[k] == rest[k - a];
    assert Trim(s) == s[a..|s| - b];
  }

  /** Trimming is idempotent. */
  lemma TrimIdempotent(s: string)
    ensures Trim(Trim(s)) == Trim(s)
  {
    var t := Trim(s);
    if |t| > 0 {
      assert LeadingSpaces(t) == 0;
      assert t[0..] == t;
      assert TrailingSpaces(t) == 0;
    }
  }

  /** Trimming yields the empty string exactly when `s` is all white space. */
  lemma TrimEmpty(s: string)
    ensures Trim(s) == "" <==> forall k :: 0 <= k < |s| ==> IsJsSpace(s[k])
  {
    TrimIsSlice(s);
    if Trim(s) != "" {
      assert !IsJsSpace(Trim(s)[0]);
    }
  }

  /** An ECMAScript "array index": the canonical decimal form of an integer
      below 2^32 - 1. Such keys are enumerated first, in numeric order. */
  predicate IsArrayIndex(s: string) {
    Canonical(s) && ParseDigits(s) < 0xFFFF_FFFF
  }

  /** Lexicographic order on strings, character by character, a proper
      prefix first: the order of `Array.prototype.sort` without a comparator. */
  predicate StrLe(a: string, b: string) {
    if |a| == 0 then true
    else if |b| == 0 then false
    else if a[0] != b[0] then a[0] < b[0]
    else StrLe(a[1..], b[1..])
  }

  lemma {:induction false} StrLeTotal(a: string, b: string)
    ensures StrLe(a, b) || StrLe(b, a)
  {
    if |a| > 0 && |b| > 0 && a[0] == b[0] {
      StrLeTotal(a[1..], b[1..]);
    }
  }

  lemma {:induction false} StrLeTransitive(a: string, b: string, c: string)
    requires StrLe(a, b) && StrLe(b, c)
    ensures StrLe(a, c)
  {
    if |a| > 0 && |b| > 0 && |c| > 0 && a[0] == b[0] && b[0] == c[0] {
      StrLeTransitive(a[1..], b[1..], c[1..]);
    }
  }

  lemma {:induction false} StrLeAntisymmetric(a: string, b: string)
    requires StrLe(a, b) && StrLe(b, a)
    ensures a == b
  {
    if |a| > 0 && |b| > 0 {
      StrLeAntisymmetric(a[1..], b[1..]);
      assert a == [a[0]] + a[1..] && b == [b[0]] + b[1..];
    }
  }

  /** String order is a total order on strings. */
  lemma StrLeIsOrder()
    ensures forall a: string, b: string :: StrLe(a, b) || StrLe(b, a)
    ensures forall a: string, b: string, c: string :: StrLe(a, b) && StrLe(b, c) ==> StrLe(a, c)
    ensures forall a: string, b: string :: StrLe(a, b) && StrLe(b, a) ==> a == b
  {
    forall a: string, b: string ensures StrLe(a, b) || StrLe(b, a) {
      StrLeTotal(a, b);
    }
    forall a: string, b: string, c: string | StrLe(a, b) && StrLe(b, c) ensures StrLe(a, c) {
      StrLeTransitive(a, b, c);
    }
    forall a: string, b: string | StrLe(a, b) && StrLe(b, a) ensures a == b {
      StrLeAntisymmetric(a, b);
    }
  }
}
