/**
  PHP value semantics shared by the models of the binary-log viewer, the
  replication screens and the ODS exporter: optional values, the scalar
  values that request parameters, URL parameter arrays and the session hold,
  `empty()` on strings, the `(int)` cast of a string, integer-to-string
  conversion, `htmlspecialchars` and ASCII lower-casing.
 */
module Php {

  datatype Option<+T> = None | Some(value: T) {
    function GetOr(default: T): T {
      if Some? then value else default
    }
  }

  /** A PHP scalar held in a parameter array or in the session. */
  datatype Value = Null | Bool(b: bool) | Int(i: int) | Str(s: string)

  /** PHP `empty()` on a string: true exactly for "" and "0". */
  predicate EmptyString(s: string) {
    s == "" || s == "0"
  }

  /** PHP `empty()` on a parameter that may be absent (null). */
  predicate Empty(v: Option<string>) {
    v.None? || EmptyString(v.value)
  }

  predicate HasPrefix(s: string, p: string) {
    |p| <= |s| && s[..|p|] == p
  }

  // ---------------------------------------------------------------------
  // Parameter arrays: setting or dropping keys outside a set of keys
  // ---------------------------------------------------------------------

  lemma ConcatAssoc<T>(a: seq<T>, b: seq<T>, c: seq<T>)
    ensures a + b + c == a + (b + c)
  {
  }

  lemma ConcatRight<T>(a: seq<T>, b: seq<T>, i: nat)
    requires i < |b|
    ensures |a| + i < |a + b| && (a + b)[|a| + i] == b[i]
  {
  }

  lemma ConcatAssoc4<T>(a: seq<T>, b: seq<T>, c: seq<T>, d: seq<T>)
    ensures a + b + c + d == a + (b + (c + d))
  {
  }

  /** Writing two keys again, in the same order, leaves only the second writes. */
  lemma RewrittenTwo<K, V>(m: map<K, V>, b: K, c: K, vb: V, vc: V, wb: V, wc: V)
    ensures m[b := vb][c := vc][b := wb][c := wc] == m[b := wb][c := wc]
  {
  }

  /** Writing three keys again, in the same order, leaves only the second writes. */
  lemma RewrittenThree<K, V>(m: map<K, V>, a: K, b: K, c: K, va: V, vb: V, vc: V, wa: V, wb: V, wc: V)
    ensures m[a := va][b := vb][c := vc][a := wa][b := wb][c := wc] == m[a := wa][b := wb][c := wc]
  {
  }

  lemma RemoveAbsentKey<K, V>(m: map<K, V>, k: K)
    requires k !in m
    ensures m - {k} == m
  {
  }

  lemma MapUpdateRemove<K, V>(m: map<K, V>, k: K, v: V)
    requires k !in m
    ensures m[k := v] - {k} == m
  {
  }

  lemma RemoveAbsent<K, V>(m: map<K, V>, k: K, ks: set<K>)
    requires k !in m && k in ks
    ensures m - ks == m - (ks - {k})
  {
  }

  lemma RemoveUpdated<K, V>(m: map<K, V>, k: K, v: V, ks: set<K>)
    requires k in ks
    ensures m[k := v] - ks == m - ks
  {
  }

  lemma RemoveRemoved<K, V>(m: map<K, V>, k: K, ks: set<K>)
    requires k in ks
    ensures (m - {k}) - ks == m - ks
  {
  }

  // ---------------------------------------------------------------------
  // Searching in strings
  // ---------------------------------------------------------------------

  /** Index of the first occurrence of `c` in `s`. */
  function FirstIndex(s: string, c: char): (r: Option<nat>)
    ensures r.None? <==> c !in s
    ensures r.Some? ==> r.value < |s| && s[r.value] == c && c !in s[..r.value]
  {
    if s == [] then None
    else if s[0] == c then Some(0)
    else match FirstIndex(s[1..], c)
      case None => None
      case Some(k) =>
        assert s[..k + 1] == [s[0]] + s[1..][..k];
        Some(k + 1)
  }

  /** Index of the last occurrence of `c` in `s`. */
  function LastIndex(s: string, c: char): (r: Option<nat>)
    ensures r.None? <==> c !in s
    ensures r.Some? ==> r.value < |s| && s[r.value] == c && c !in s[r.value + 1..]
  {
    if s == [] then None
    else if s[|s| - 1] == c then Some(|s| - 1)
    else
      var r := LastIndex(s[..|s| - 1], c);
      assert r.Some? ==> s[r.value + 1..] == s[..|s| - 1][r.value + 1..] + [s[|s| - 1]];
      assert r.None? ==> s == s[..|s| - 1] + [s[|s| - 1]];
      r
  }

  lemma {:induction false} FirstIndexAt(p: string, c: char, q: string)
    requires c !in p
    ensures FirstIndex(p + [c] + q, c) == Some(|p|)
  {
    var s := p + [c] + q;
    assert s[|p|] == c && s[..|p|] == p;
  }

  lemma {:induction false} LastIndexAt(p: string, c: char, q: string)
    requires c !in q
    ensures LastIndex(p + [c] + q, c) == Some(|p|)
  {
    var s := p + [c] + q;
    assert s[|p|] == c && s[|p| + 1..] == q;
  }

  // ---------------------------------------------------------------------
  // Decimal integers
  // ---------------------------------------------------------------------

  predicate IsDigit(c: char) {
    '0' <= c <= '9'
  }

  predicate AllDigits(s: string) {
    forall i :: 0 <= i < |s| ==> IsDigit(s[i])
  }

  /** PHP `ctype_digit` on a string: non-empty and decimal digits only. */
  predicate IsDigits(s: string) {
    s != [] && AllDigits(s)
  }

  function DigitValue(c: char): nat
    requires IsDigit(c)
  {
    (c as int) - ('0' as int)
  }

  function DigitChar(d: nat): (c: char)
    requires d < 10
    ensures IsDigit(c) && DigitValue(c) == d
  {
    ('0' as int + d) as char
  }

  /** Value of a string of decimal digits, most significant digit first. */
  function DigitsValue(s: string): nat
    requires AllDigits(s)
  {
    if s == [] then 0 else 10 * DigitsValue(s[..|s| - 1]) + DigitValue(s[|s| - 1])
  }

  /** Decimal representation of a natural number, without leading zeros. */
  function NatToString(n: nat): (r: string)
    ensures IsDigits(r) && DigitsValue(r) == n
    ensures |r| > 1 ==> r[0] != '0'
  {
    if n < 10 then [DigitChar(n)]
    else
      var r := NatToString(n / 10) + [DigitChar(n % 10)];
      assert r[..|r| - 1] == NatToString(n / 10);
      r
  }

  /** PHP's conversion of an int to a string: decimal, with a leading '-' when negative. */
  function IntToString(n: int): (r: string)
    ensures r != []
    ensures forall i :: 0 <= i < |r| ==> IsDigit(r[i]) || (i == 0 && r[i] == '-')
    ensures (r[0] == '-') <==> n < 0
  {
    if n < 0 then "-" + NatToString(-n) else NatToString(n)
  }

  /**
    An integer literal as the pager and the skip-error statement write it:
    an optional '-' followed by at least one digit.
   */
  function ParseIntLiteral(s: string): Option<int> {
    if s != [] && s[0] == '-' && IsDigits(s[1..]) then Some(-(DigitsValue(s[1..]) as int))
    else if IsDigits(s) then Some(DigitsValue(s))
    else None
  }

  lemma {:induction false} ParseIntLiteralRoundTrip(n: int)
    ensures ParseIntLiteral(IntToString(n)) == Some(n)
  {
    var r := IntToString(n);
    if n < 0 {
      assert r[1..] == NatToString(-n);
    } else {
      assert r == NatToString(n);
      assert r[0] != '-';
    }
  }

  /** Whitespace PHP skips in front of a numeric string: space, \t, \n, \r, \v, \f. */
  predicate IsSpace(c: char) {
    c == ' ' || c == '\t' || c == '\n' || c == '\r' || c as int == 11 || c as int == 12
  }

  function SkipSpace(s: string): (r: string)
    ensures |r| <= |s|
  {
    if s != [] && IsSpace(s[0]) then SkipSpace(s[1..]) else s
  }

  /** The longest prefix of `s` made of digits. */
  function LeadingDigits(s: string): (r: string)
    ensures AllDigits(r) && HasPrefix(s, r)
    ensures |r| == |s| || !IsDigit(s[|r|])
  {
    if s != [] && IsDigit(s[0]) then [s[0]] + LeadingDigits(s[1..]) else []
  }

  /**
    PHP's `(int)` cast of a string: leading whitespace is skipped, an optional
    sign is read, then the longest run of digits; a string with no digits
    there gives 0.
   */
  function IntCast(s: string): int {
    var t := SkipSpace(s);
    if t != [] && t[0] == '-' then -(DigitsValue(LeadingDigits(t[1..])) as int)
    else if t != [] && t[0] == '+' then DigitsValue(LeadingDigits(t[1..]))
    else DigitsValue(LeadingDigits(t))
  }

  lemma {:induction false} LeadingDigitsOfDigits(s: string)
    requires AllDigits(s)
    ensures LeadingDigits(s) == s
  {
    if s != [] {
      LeadingDigitsOfDigits(s[1..]);
    }
  }

  /** Casting PHP's own rendering of an integer back with `(int)` gives the integer. */
  lemma {:induction false} IntCastRoundTrip(n: int)
    ensures IntCast(IntToString(n)) == n
  {
    var r := IntToString(n);
    assert !IsSpace(r[0]);
    assert SkipSpace(r) == r;
    if n < 0 {
      assert r[1..] == NatToString(-n);
      LeadingDigitsOfDigits(r[1..]);
    } else {
      LeadingDigitsOfDigits(r);
    }
  }

  // ---------------------------------------------------------------------
  // htmlspecialchars
  // ---------------------------------------------------------------------

  /** The entity `htmlspecialchars` writes for one character (flags ENT_QUOTES). */
  function EscapeChar(c: char): string {
    if c == '&' then "&amp;"
    else if c == '"' then "&quot;"
    else if c == '\'' then "&#039;"
    else if c == '<' then "&lt;"
    else if c == '>' then "&gt;"
    else [c]
  }

  /** `htmlspecialchars` with the ENT_QUOTES flag set. */
  function HtmlEscape(s: string): (r: string)
    ensures forall i :: 0 <= i < |r| ==> r[i] != '<' && r[i] != '>' && r[i] != '"' && r[i] != '\''
    ensures |s| <= |r|
  {
    if s == [] then [] else EscapeChar(s[0]) + HtmlEscape(s[1..])
  }

  /** `htmlspecialchars_decode` with the ENT_QUOTES flag set: the inverse of HtmlEscape. */
  function HtmlUnescape(s: string): string
    decreases |s|
  {
    if s == [] then []
    else if HasPrefix(s, "&amp;") then "&" + HtmlUnescape(s[5..])
    else if HasPrefix(s, "&quot;") then "\"" + HtmlUnescape(s[6..])
    else if HasPrefix(s, "&#039;") then "'" + HtmlUnescape(s[6..])
    else if HasPrefix(s, "&lt;") then "<" + HtmlUnescape(s[4..])
    else if HasPrefix(s, "&gt;") then ">" + HtmlUnescape(s[4..])
    else [s[0]] + HtmlUnescape(s[1..])
  }

  lemma NotPrefixAt(s: string, p: string, i: nat)
    requires i < |p| && i < |s| && s[i] != p[i]
    ensures !HasPrefix(s, p)
  {
  }

  lemma {:induction false} UnescapeAfterEscapeChar(c: char, rest: string)
    ensures HtmlUnescape(EscapeChar(c) + rest) == [c] + HtmlUnescape(rest)
  {
    var e := EscapeChar(c);
    var s := e + rest;
    assert s[..|e|] == e && s[|e|..] == rest;
    if c == '&' {
    } else if c == '"' {
      NotPrefixAt(s, "&amp;", 1);
    } else if c == '\'' {
      NotPrefixAt(s, "&amp;", 1);
      NotPrefixAt(s, "&quot;", 1);
    } else if c == '<' {
      NotPrefixAt(s, "&amp;", 1);
      NotPrefixAt(s, "&quot;", 1);
      NotPrefixAt(s, "&#039;", 1);
    } else if c == '>' {
      NotPrefixAt(s, "&amp;", 1);
      NotPrefixAt(s, "&quot;", 1);
      NotPrefixAt(s, "&#039;", 1);
      NotPrefixAt(s, "&lt;", 1);
    } else {
      NotPrefixAt(s, "&amp;", 0);
      NotPrefixAt(s, "&quot;", 0);
      NotPrefixAt(s, "&#039;", 0);
      NotPrefixAt(s, "&lt;", 0);
      NotPrefixAt(s, "&gt;", 0);
      assert s[1..] == rest;
    }
  }

  /** Escaping loses nothing: decoding the escaped text gives the original back. */
  lemma {:induction false} HtmlEscapeRoundTrip(s: string)
    ensures HtmlUnescape(HtmlEscape(s)) == s
  {
    if s != [] {
      UnescapeAfterEscapeChar(s[0], HtmlEscape(s[1..]));
      HtmlEscapeRoundTrip(s[1..]);
    }
  }

  // ---------------------------------------------------------------------
  // Lower-casing
  // ---------------------------------------------------------------------

  function LowerChar(c: char): char {
    if 'A' <= c <= 'Z' then (c as int + 32) as char else c
  }

  /**
    `mb_strtolower` restricted to ASCII letters; the strings compared with its
    result in the replication screens are ASCII.
   */
  function Lower(s: string): (r: string)
    ensures |r| == |s|
  {
    if s == [] then [] else [LowerChar(s[0])] + Lower(s[1..])
  }

  lemma {:induction false} LowerIdempotent(s: string)
    ensures Lower(Lower(s)) == Lower(s)
  {
    if s != [] {
      LowerIdempotent(s[1..]);
    }
  }
}
