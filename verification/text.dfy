/** The pieces of Python string handling the wire protocol relies on:
    `str.strip()`, `str.startswith`, `str.split(",")` and `int(str)` for
    a plain optionally-signed decimal literal. */
module Text {
  import opened Base

  /** Python's `str.isspace()` for a single character. */
  predicate IsSpace(c: char) {
    || ('\U{0009}' <= c <= '\U{000D}')
    || ('\U{001C}' <= c <= '\U{0020}')
    || c == '\U{0085}' || c == '\U{00A0}' || c == '\U{1680}'
    || ('\U{2000}' <= c <= '\U{200A}')
    || c == '\U{2028}' || c == '\U{2029}' || c == '\U{202F}'
    || c == '\U{205F}' || c == '\U{3000}'
  }

  predicate AllSpace(s: string) {
    forall i :: 0 <= i < |s| ==> IsSpace(s[i])
  }

  /** The number of leading whitespace characters of `s`. */
  function LeadingSpaces(s: string): (n: nat)
    ensures n <= |s|
    ensures forall i :: 0 <= i < n ==> IsSpace(s[i])
    ensures n == |s| || !IsSpace(s[n])
  {
    if |s| > 0 && IsSpace(s[0]) then 1 + LeadingSpaces(s[1..]) else 0
  }

  /** The length of `s` once its trailing whitespace is dropped. */
  function TrailingEnd(s: string): (n: nat)
    ensures n <= |s|
    ensures forall i :: n <= i < |s| ==> IsSpace(s[i])
    ensures n == 0 || !IsSpace(s[n - 1])
  {
    if |s| > 0 && IsSpace(s[|s| - 1]) then TrailingEnd(s[..|s| - 1]) else |s|
  }

  /** `s.lstrip()`. */
  function TrimLeft(s: string): string {
    s[LeadingSpaces(s)..]
  }

  /** `s.rstrip()`. */
  function TrimRight(s: string): string {
    s[..TrailingEnd(s)]
  }

  /** `s.strip()`. */
  function Strip(s: string): (r: string)
    ensures |r| <= |s|
    ensures r == [] || (!IsSpace(r[0]) && !IsSpace(r[|r| - 1]))
  {
    TrimRight(TrimLeft(s))
  }

  /** `s.startswith(p)`. */
  predicate StartsWith(s: string, p: string) {
    |p| <= |s| && s[..|p|] == p
  }

  /** No character of `s` is `c`. */
  predicate Lacks(s: string, c: char) {
    forall k :: 0 <= k < |s| ==> s[k] != c
  }

  /** `s.split(sep)`: always at least one field, and no field holds `sep`. */
  function Split(s: string, sep: char): (r: seq<string>)
    ensures |r| >= 1
    ensures forall i :: 0 <= i < |r| ==> Lacks(r[i], sep)
  {
    if |s| == 0 then [""]
    else
      var rest := Split(s[1..], sep);
      if s[0] == sep then [""] + rest
      else [[s[0]] + rest[0]] + rest[1..]
  }

  /** `sep.join(parts)`. */
  function Join(parts: seq<string>, sep: char): string
    requires |parts| >= 1
  {
    if |parts| == 1 then parts[0] else parts[0] + [sep] + Join(parts[1..], sep)
  }

  // ---------------------------------------------------------------------
  // Decimal integers
  // ---------------------------------------------------------------------

  predicate IsDigit(c: char) {
    '0' <= c <= '9'
  }

  predicate AllDigits(s: string) {
    forall i :: 0 <= i < |s| ==> IsDigit(s[i])
  }

  function DigitValue(c: char): nat
    requires IsDigit(c)
  {
    (c as int) - ('0' as int)
  }

  function DigitChar(d: nat): (c: char)
    requires d < 10
    ensures IsDigit(c) && DigitValue(c) == d
  {
    (('0' as int) + d) as char
  }

  /** The value of a string of decimal digits, most significant first. */
  function DigitsValue(s: string): nat
    requires AllDigits(s)
  {
    if |s| == 0 then 0 else DigitsValue(s[..|s| - 1]) * 10 + DigitValue(s[|s| - 1])
  }

  /** `str(n)` for a natural number: no sign, no leading zeros. */
  function ShowNat(n: nat): (r: string)
    ensures |r| >= 1 && AllDigits(r)
  {
    if n < 10 then [DigitChar(n)] else ShowNat(n / 10) + [DigitChar(n % 10)]
  }

  /** `str(i)` for an integer. */
  function ShowInt(i: int): (r: string)
    ensures |r| >= 1
  {
    if i < 0 then "-" + ShowNat(-i) else ShowNat(i)
  }

  /** `int(s)` restricted to the grammar `ws* [+-]? digit+ ws*`; `None` is
      the `ValueError` Python raises for anything outside it. */
  function ParseInt(s: string): (r: Option<int>)
    ensures r.Some? ==> var t := Strip(s);
      && |t| > 0 && AllDigits(t[1..])
      && (IsDigit(t[0]) || (|t| > 1 && (t[0] == '-' || t[0] == '+')))
    ensures r.Some? && IsDigit(Strip(s)[0]) ==> r.value >= 0
    ensures r.Some? && Strip(s)[0] == '-' ==> r.value <= 0
  {
    ParseSigned(Strip(s))
  }

  /** An optionally signed run of decimal digits, with no surrounding whitespace. */
  function ParseSigned(t: string): Option<int> {
    if |t| > 0 && (t[0] == '-' || t[0] == '+') then
      var d := t[1..];
      if |d| > 0 && AllDigits(d) then
        var v: int := DigitsValue(d);
        Some(if t[0] == '-' then -v else v)
      else None
    else if |t| > 0 && AllDigits(t) then Some(DigitsValue(t))
    else None
  }

  /** A field that survives `split(",")` and `strip()` untouched. */
  predicate PlainField(s: string) {
    |s| > 0 && forall i :: 0 <= i < |s| ==> s[i] != ',' && !IsSpace(s[i])
  }

  // ---------------------------------------------------------------------
  // Lemmas
  // ---------------------------------------------------------------------

  /** Any count of leading blanks that stops at a non-blank is the count. */
  lemma LeadingSpacesUnique(s: string, n: nat)
    requires n <= |s|
    requires forall i :: 0 <= i < n ==> IsSpace(s[i])
    requires n == |s| || !IsSpace(s[n])
    ensures LeadingSpaces(s) == n
  {
  }

  lemma TrailingEndUnique(s: string, n: nat)
    requires n <= |s|
    requires forall i :: n <= i < |s| ==> IsSpace(s[i])
    requires n == 0 || !IsSpace(s[n - 1])
    ensures TrailingEnd(s) == n
  {
  }

  /** Blanks in front of `v` add exactly their own count to the leading blanks. */
  lemma LeadingSpacesAfterBlank(u: string, v: string)
    requires AllSpace(u)
    ensures LeadingSpaces(u + v) == |u| + LeadingSpaces(v)
  {
    var x := u + v;
    var n := |u| + LeadingSpaces(v);
    forall i | 0 <= i < n
      ensures IsSpace(x[i])
    {
      if i < |u| {
        assert x[i] == u[i];
      } else {
        assert x[i] == v[i - |u|];
      }
    }
    if n < |x| {
      assert x[n] == v[n - |u|];
    }
    LeadingSpacesUnique(x, n);
  }

  /** Text after a non-blank character does not change the leading blanks. */
  lemma LeadingSpacesBeforeText(v: string, w: string)
    requires LeadingSpaces(v) < |v|
    ensures LeadingSpaces(v + w) == LeadingSpaces(v)
  {
    var x := v + w;
    var n := LeadingSpaces(v);
    forall i | 0 <= i < n
      ensures IsSpace(x[i])
    {
      assert x[i] == v[i];
    }
    assert x[n] == v[n];
    LeadingSpacesUnique(x, n);
  }

  lemma AllSpaceCat(u: string, v: string)
    requires AllSpace(u) && AllSpace(v)
    ensures AllSpace(u + v)
  {
    var x := u + v;
    forall i | 0 <= i < |x|
      ensures IsSpace(x[i])
    {
      if i < |u| {
        assert x[i] == u[i];
      } else {
        assert x[i] == v[i - |u|];
      }
    }
  }

  lemma TrimLeftBlank(w1: string, s: string, w2: string)
    requires AllSpace(w1) && AllSpace(w2) && LeadingSpaces(s) == |s|
    ensures TrimLeft(w1 + s + w2) == []
  {
    AllSpaceCat(w1, s);
    AllSpaceCat(w1 + s, w2);
    LeadingSpacesUnique(w1 + s + w2, |w1 + s + w2|);
  }

  lemma LeadingSpacesPadded(w1: string, s: string, w2: string)
    requires AllSpace(w1) && LeadingSpaces(s) < |s|
    ensures LeadingSpaces(w1 + s + w2) == |w1| + LeadingSpaces(s)
  {
    var t := s + w2;
    assert w1 + s + w2 == w1 + t;
    LeadingSpacesAfterBlank(w1, t);
    LeadingSpacesBeforeText(s, w2);
  }

  lemma TrimLeftPadded(w1: string, s: string, w2: string)
    requires AllSpace(w1) && AllSpace(w2) && LeadingSpaces(s) < |s|
    ensures TrimLeft(w1 + s + w2) == TrimLeft(s) + w2
  {
    LeadingSpacesPadded(w1, s, w2);
    TrimLeftShifted(w1, s, w2);
  }

  /** Once the padded string's leading whitespace is known to end where the
      middle part's does, trimming it leaves the middle part trimmed. */
  lemma TrimLeftShifted(w1: string, s: string, w2: string)
    requires LeadingSpaces(w1 + s + w2) == |w1| + LeadingSpaces(s)
    ensures TrimLeft(w1 + s + w2) == TrimLeft(s) + w2
  {
    SliceCat3(w1, s, w2, LeadingSpaces(s));
  }

  /** Dropping the first part and a prefix of the middle one. */
  lemma SliceCat3(w1: string, s: string, w2: string, a: nat)
    requires a <= |s|
    ensures (w1 + s + w2)[|w1| + a..] == s[a..] + w2
  {
  }

  lemma TrimRightPadded(t: string, w2: string)
    requires AllSpace(w2) && |t| > 0 && !IsSpace(t[0])
    ensures TrimRight(t + w2) == TrimRight(t)
  {
    var n := TrailingEnd(t);
    TrailingEndUnique(t + w2, n);
    assert (t + w2)[..n] == t[..n];
  }

  /** Surrounding whitespace never changes the result of `strip()`. */
  lemma StripIgnoresPadding(w1: string, s: string, w2: string)
    requires AllSpace(w1) && AllSpace(w2)
    ensures Strip(w1 + s + w2) == Strip(s)
  {
    if LeadingSpaces(s) < |s| {
      TrimLeftPadded(w1, s, w2);
      TrimRightPadded(TrimLeft(s), w2);
    } else {
      TrimLeftBlank(w1, s, w2);
    }
  }

  /** `strip()` leaves a string alone when it neither starts nor ends with whitespace. */
  lemma StripUnpadded(s: string)
    requires s == [] || (!IsSpace(s[0]) && !IsSpace(s[|s| - 1]))
    ensures Strip(s) == s
  {
  }

  lemma StripDigits(s: string)
    requires AllDigits(s)
    ensures Strip(s) == s
  {
    if |s| > 0 {
      assert IsDigit(s[0]) && IsDigit(s[|s| - 1]);
      StripUnpadded(s);
    }
  }

  lemma StripIdempotent(s: string)
    ensures Strip(Strip(s)) == Strip(s)
  {
    StripUnpadded(Strip(s));
  }

  lemma {:induction false} SplitNoSeparator(p: string, sep: char)
    requires Lacks(p, sep)
    ensures Split(p, sep) == [p]
    decreases |p|
  {
    if |p| > 0 {
      SplitNoSeparator(p[1..], sep);
      assert [p[0]] + p[1..] == p;
    }
  }

  lemma {:induction false} SplitAfterField(p: string, sep: char, rest: string)
    requires Lacks(p, sep)
    ensures Split(p + [sep] + rest, sep) == [p] + Split(rest, sep)
    decreases |p|
  {
    var s := p + [sep] + rest;
    if |p| == 0 {
      assert s[1..] == rest;
    } else {
      assert s[0] == p[0];
      assert s[1..] == p[1..] + [sep] + rest;
      SplitAfterField(p[1..], sep, rest);
      assert [p[0]] + p[1..] == p;
    }
  }

  /** `split` undoes `join` when no part holds the separator. */
  lemma {:induction false} SplitJoin(parts: seq<string>, sep: char)
    requires |parts| >= 1
    requires forall i :: 0 <= i < |parts| ==> Lacks(parts[i], sep)
    ensures Split(Join(parts, sep), sep) == parts
    decreases |parts|
  {
    if |parts| == 1 {
      SplitNoSeparator(parts[0], sep);
    } else {
      SplitAfterField(parts[0], sep, Join(parts[1..], sep));
      SplitJoin(parts[1..], sep);
      assert [parts[0]] + parts[1..] == parts;
    }
  }

  lemma JoinFirst(parts: seq<string>, sep: char)
    requires |parts| >= 2
    ensures Join(parts, sep) == parts[0] + [sep] + Join(parts[1..], sep)
  {
  }

  lemma JoinCons(p: string, rest: seq<string>, sep: char)
    requires |rest| >= 1
    ensures Join([p] + rest, sep) == p + [sep] + Join(rest, sep)
  {
    assert ([p] + rest)[1..] == rest;
  }

  lemma {:induction false} JoinLast(parts: seq<string>, sep: char)
    requires |parts| >= 1 && |parts[|parts| - 1]| > 0
    ensures var j := Join(parts, sep); |j| > 0 && j[|j| - 1] == parts[|parts| - 1][|parts[|parts| - 1]| - 1]
    decreases |parts|
  {
    if |parts| > 1 {
      JoinLast(parts[1..], sep);
    }
  }

  /** Reading back the digits `str(n)` writes gives `n`. */
  lemma {:induction false} ShowNatRoundTrip(n: nat)
    ensures DigitsValue(ShowNat(n)) == n
    decreases n
  {
    if n >= 10 {
      var s := ShowNat(n);
      assert s[..|s| - 1] == ShowNat(n / 10);
      ShowNatRoundTrip(n / 10);
    }
  }

  lemma ShowIntPlain(i: int)
    ensures PlainField(ShowInt(i))
  {
    var s := ShowInt(i);
    var digits := if i < 0 then ShowNat(-i) else ShowNat(i);
    assert s == (if i < 0 then "-" else "") + digits;
    forall k | 0 <= k < |s|
      ensures s[k] != ',' && !IsSpace(s[k])
    {
      if i < 0 && k == 0 {
        assert s[k] == '-';
      } else {
        var j := if i < 0 then k - 1 else k;
        assert s[k] == digits[j];
        assert IsDigit(digits[j]);
      }
    }
  }

  lemma ParseSignedDigits(d: string)
    requires |d| > 0 && AllDigits(d)
    ensures ParseSigned(d) == Some(DigitsValue(d))
    ensures ParseSigned("-" + d) == Some(-(DigitsValue(d) as int))
    ensures ParseSigned("+" + d) == Some(DigitsValue(d))
  {
    assert IsDigit(d[0]);
    assert ("-" + d)[1..] == d;
    assert ("+" + d)[1..] == d;
  }

  /** `int()` accepts every string of the grammar `ws* [+-]? digit+ ws*`,
      and its value is the decimal value of the digits, negated after `-`. */
  lemma ParseIntOfGrammar(w1: string, sign: string, d: string, w2: string)
    requires AllSpace(w1) && AllSpace(w2)
    requires sign == "" || sign == "+" || sign == "-"
    requires |d| > 0 && AllDigits(d)
    ensures ParseInt(w1 + sign + d + w2) == Some(if sign == "-" then -(DigitsValue(d) as int) else DigitsValue(d))
  {
    var t := sign + d;
    Regroup(w1, sign, d, w2);
    assert IsDigit(d[0]) && IsDigit(d[|d| - 1]);
    assert t[|t| - 1] == d[|d| - 1];
    if sign == "" {
      assert t == d;
    } else {
      assert t[0] == sign[0];
    }
    ParseIntPadded(w1, t, w2);
    ParseSignedDigits(d);
  }

  lemma Regroup(a: string, b: string, c: string, e: string)
    ensures a + b + c + e == a + (b + c) + e
  {
  }

  /** Around a text with no blank at either end, padding does not change `int()`. */
  lemma ParseIntPadded(w1: string, t: string, w2: string)
    requires AllSpace(w1) && AllSpace(w2)
    requires |t| > 0 && !IsSpace(t[0]) && !IsSpace(t[|t| - 1])
    ensures ParseInt(w1 + t + w2) == ParseSigned(t)
  {
    StripIgnoresPadding(w1, t, w2);
    StripUnpadded(t);
  }

  /** `int(str(i)) == i`. */
  lemma ShowIntRoundTrip(i: int)
    ensures ParseInt(ShowInt(i)) == Some(i)
  {
    var s := ShowInt(i);
    assert Strip(s) == s by {
      ShowIntPlain(i);
      assert !IsSpace(s[0]) && !IsSpace(s[|s| - 1]);
      StripUnpadded(s);
    }
    var n: nat := if i < 0 then -i else i;
    ParseSignedDigits(ShowNat(n));
    ShowNatRoundTrip(n);
  }
}
