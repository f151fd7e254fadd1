/** String helpers with the semantics of the Python and JavaScript built-ins the
    repository relies on: decimal formatting and parsing of integers (`str`, `int`),
    whitespace stripping, splitting on a separator, substring tests and case folding. */
module Text {
  import opened Wrappers

  // ---------------------------------------------------------------------------
  // Characters

  /** ASCII whitespace, the part of Python's `str.isspace` and JavaScript's trim set
      that the model covers. */
  predicate IsSpace(c: char) {
    c == ' ' || c == '\t' || c == '\n' || c == '\r' || c == '\U{0B}' || c == '\U{0C}'
  }

  predicate IsDigit(c: char) {
    '0' <= c <= '9'
  }

  predicate AllDigits(s: string) {
    forall i :: 0 <= i < |s| ==> IsDigit(s[i])
  }

  function DigitChar(d: nat): (c: char)
    requires d < 10
    ensures IsDigit(c)
  {
    ['0', '1', '2', '3', '4', '5', '6', '7', '8', '9'][d]
  }

  function DigitValue(c: char): (d: nat)
    requires IsDigit(c)
    ensures d < 10
  {
    (c as int - '0' as int) as nat
  }

  lemma DigitValueOfDigitChar(d: nat)
    requires d < 10
    ensures DigitValue(DigitChar(d)) == d
  {
  }

  /** Lower-case mapping of ASCII and of the basic Cyrillic alphabet (А..Я and Ё). */
  function LowerChar(c: char): char {
    if 'A' <= c <= 'Z' then (c as int + 32) as char
    else if 'А' <= c <= 'Я' then (c as int + 32) as char
    else if c == 'Ё' then 'ё'
    else c
  }

  /** Upper-case mapping of ASCII and of the basic Cyrillic alphabet (а..я and ё). */
  function UpperChar(c: char): char {
    if 'a' <= c <= 'z' then (c as int - 32) as char
    else if 'а' <= c <= 'я' then (c as int - 32) as char
    else if c == 'ё' then 'Ё'
    else c
  }

  /** A letter with case: the characters the two mappings above act on. */
  predicate IsCased(c: char) {
    'A' <= c <= 'Z' || 'a' <= c <= 'z' || 'А' <= c <= 'я' || c == 'Ё' || c == 'ё'
  }

  /** Python `str.title()`: a cased letter is upper-cased when it starts the string or
      follows a character without case, and lower-cased otherwise. */
  function Title(s: string): (r: string)
    ensures |r| == |s|
    ensures forall i :: 0 <= i < |s| ==>
      r[i] == if i == 0 || !IsCased(s[i - 1]) then UpperChar(s[i]) else LowerChar(s[i])
  {
    TitleAfter(s, false)
  }

  function TitleAfter(s: string, afterCased: bool): (r: string)
    ensures |r| == |s|
    ensures |s| > 0 ==> r[0] == if afterCased then LowerChar(s[0]) else UpperChar(s[0])
    ensures forall i :: 1 <= i < |s| ==>
      r[i] == if IsCased(s[i - 1]) then LowerChar(s[i]) else UpperChar(s[i])
  {
    if |s| == 0 then ""
    else
      var rest := TitleAfter(s[1..], IsCased(s[0]));
      assert forall i :: 1 <= i < |s| ==> s[1..][i - 1] == s[i];
      [if afterCased then LowerChar(s[0]) else UpperChar(s[0])] + rest
  }

  function Lower(s: string): (r: string)
    ensures |r| == |s|
    ensures forall i :: 0 <= i < |s| ==> r[i] == LowerChar(s[i])
  {
    seq(|s|, i requires 0 <= i < |s| => LowerChar(s[i]))
  }

  /** Lower-casing forgets which case a letter had. */
  lemma LowerForgetsCase(c: char)
    ensures LowerChar(UpperChar(c)) == LowerChar(c)
    ensures LowerChar(LowerChar(c)) == LowerChar(c)
  {
  }

  /** Title-casing only changes case: lower-cased, the title is the lower-cased input. */
  lemma TitleKeepsLetters(s: string)
    ensures Lower(Title(s)) == Lower(s)
  {
    forall i | 0 <= i < |s|
      ensures Lower(Title(s))[i] == Lower(s)[i]
    {
      LowerForgetsCase(s[i]);
      var t := Title(s);
      if i == 0 || !IsCased(s[i - 1]) {
        assert t[i] == UpperChar(s[i]);
      } else {
        assert t[i] == LowerChar(s[i]);
      }
    }
  }

  // ---------------------------------------------------------------------------
  // Decimal formatting and parsing

  /** Python `str(n)` for a natural number: shortest decimal digits. */
  function NatToString(n: nat): (s: string)
    ensures |s| > 0 && AllDigits(s)
  {
    if n < 10 then [DigitChar(n)] else NatToString(n / 10) + [DigitChar(n % 10)]
  }

  /** Python `str(n)` / f-string formatting of an integer. */
  function IntToString(n: int): string {
    if n < 0 then "-" + NatToString(-n) else NatToString(n)
  }

  /** The value of a string of decimal digits, most significant first. */
  function DigitsValue(s: string): nat
    requires AllDigits(s)
  {
    if |s| == 0 then 0 else DigitsValue(s[..|s| - 1]) * 10 + DigitValue(s[|s| - 1])
  }

  /** Python `int(s)` on a string: surrounding whitespace is ignored, one optional sign,
      then at least one ASCII digit; anything else raises `ValueError` (`None` here). */
  function ParsePyInt(s: string): Option<int> {
    ParseSigned(Strip(s))
  }

  /** One optional sign, then at least one digit, and nothing else. */
  function ParseSigned(t: string): Option<int> {
    if |t| > 0 && (t[0] == '-' || t[0] == '+') then
      var d := t[1..];
      if |d| > 0 && AllDigits(d) then
        Some(if t[0] == '-' then -(DigitsValue(d) as int) else DigitsValue(d) as int)
      else None
    else if |t| > 0 && AllDigits(t) then Some(DigitsValue(t) as int)
    else None
  }

  lemma {:induction false} NatToStringValue(n: nat)
    ensures DigitsValue(NatToString(n)) == n
  {
    var s := NatToString(n);
    if n < 10 {
      assert s[..|s| - 1] == [];
      DigitValueOfDigitChar(n);
    } else {
      NatToStringValue(n / 10);
      var a := NatToString(n / 10);
      assert s == a + [DigitChar(n % 10)];
      assert s[..|s| - 1] == a;
      DigitValueOfDigitChar(n % 10);
    }
  }

  /** A run of digits, with or without a leading minus sign, reads as its value. */
  lemma SignedDigits(d: string)
    requires |d| > 0 && AllDigits(d)
    ensures ParseSigned(d) == Some(DigitsValue(d) as int)
    ensures ParseSigned("-" + d) == Some(-(DigitsValue(d) as int))
  {
    assert IsDigit(d[0]);
    var m := "-" + d;
    assert m[0] == '-';
    assert m[1..] == d;
  }

  /** A run of digits, with or without a leading minus sign, has no space to strip. */
  lemma DigitsUnstripped(d: string)
    requires |d| > 0 && AllDigits(d)
    ensures Strip(d) == d && Strip("-" + d) == "-" + d
  {
    assert IsDigit(d[0]) && IsDigit(d[|d| - 1]);
    StripNoEdgeSpace(d);
    var m := "-" + d;
    assert m[0] == '-' && m[|m| - 1] == d[|d| - 1];
    StripNoEdgeSpace(m);
  }

  /** `int()` reads a run of digits, with or without a leading minus sign. */
  lemma ParseDigits(d: string)
    requires |d| > 0 && AllDigits(d)
    ensures ParsePyInt(d) == Some(DigitsValue(d) as int)
    ensures ParsePyInt("-" + d) == Some(-(DigitsValue(d) as int))
  {
    DigitsUnstripped(d);
    SignedDigits(d);
  }

  /** Formatting an integer and parsing it back with `int()` gives the integer. */
  lemma IntToStringRoundTrip(n: int)
    ensures ParsePyInt(IntToString(n)) == Some(n)
  {
    var m: nat := if n < 0 then -n else n;
    var d := NatToString(m);
    assert IntToString(n) == if n < 0 then "-" + d else d;
    ParseDigits(d);
    NatToStringValue(m);
  }

  lemma IntToStringInjective(a: int, b: int)
    requires IntToString(a) == IntToString(b)
    ensures a == b
  {
    IntToStringRoundTrip(a);
    IntToStringRoundTrip(b);
  }

  lemma IntToStringHasNo(n: int, c: char)
    requires !IsDigit(c) && c != '-'
    ensures c !in IntToString(n)
  {
  }

  // ---------------------------------------------------------------------------
  // Whitespace stripping

  function StripStart(s: string): (r: string)
    ensures |r| <= |s| && r == s[|s| - |r|..]
    ensures |r| > 0 ==> !IsSpace(r[0])
    decreases |s|
  {
    if |s| > 0 && IsSpace(s[0]) then StripStart(s[1..]) else s
  }

  function StripEnd(s: string): (r: string)
    ensures |r| <= |s| && r == s[..|r|]
    ensures |r| > 0 ==> !IsSpace(r[|r| - 1])
    decreases |s|
  {
    if |s| > 0 && IsSpace(s[|s| - 1]) then StripEnd(s[..|s| - 1]) else s
  }

  /** Python `str.strip()` / JavaScript `String.prototype.trim()`. */
  function Strip(s: string): (r: string)
    ensures |r| <= |s|
  {
    StripEnd(StripStart(s))
  }

  /** Stripping twice strips nothing more. */
  lemma StripIdempotent(s: string)
    ensures Strip(Strip(s)) == Strip(s)
  {
    var t := Strip(s);
    if |t| > 0 {
      StripNoEdgeSpace(t);
    }
  }

  lemma StripNoEdgeSpace(s: string)
    requires |s| > 0 && !IsSpace(s[0]) && !IsSpace(s[|s| - 1])
    ensures Strip(s) == s
  {
  }

  // ---------------------------------------------------------------------------
  // Prefixes, suffixes, substrings

  predicate StartsWith(s: string, p: string) {
    |p| <= |s| && s[..|p|] == p
  }

  predicate EndsWith(s: string, p: string) {
    |p| <= |s| && s[|s| - |p|..] == p
  }

  /** A concatenation starts with its first part and ends with its last. */
  lemma ConcatEdges(a: string, m: string, b: string)
    ensures StartsWith(a + m + b, a) && EndsWith(a + m + b, b)
  {
    var s := a + m + b;
    assert s[..|a|] == a;
    assert s[|s| - |b|..] == b;
  }

  /** `sub` occurs in `s` starting at index `i`. */
  predicate OccursAt(s: string, sub: string, i: int) {
    0 <= i <= |s| - |sub| && s[i..i + |sub|] == sub
  }

  /** Python `sub in s` / JavaScript `s.includes(sub)`. */
  predicate Contains(s: string, sub: string) {
    exists i | 0 <= i <= |s| - |sub| :: OccursAt(s, sub, i)
  }

  /** A concatenation contains its middle part. */
  lemma ContainsMiddle(a: string, m: string, b: string)
    ensures Contains(a + m + b, m)
  {
    var s := a + m + b;
    assert s[|a|..|a| + |m|] == m;
    assert OccursAt(s, m, |a|);
  }

  /** Text found in a string is found in anything built around it. */
  lemma ContainsExtend(x: string, m: string, y: string)
    requires Contains(x, m)
    ensures Contains(x + y, m) && Contains(y + x, m)
  {
    var i :| 0 <= i <= |x| - |m| && OccursAt(x, m, i);
    assert (x + y)[i..i + |m|] == x[i..i + |m|];
    assert OccursAt(x + y, m, i);
    assert (y + x)[|y| + i..|y| + i + |m|] == x[i..i + |m|];
    assert OccursAt(y + x, m, |y| + i);
  }

  lemma ContainsSelf(m: string)
    ensures Contains(m, m)
  {
    assert m[0..|m|] == m;
    assert OccursAt(m, m, 0);
  }

  /** Concatenation regroups freely; loops that append to an accumulator use it. */
  lemma AppendAssoc<T>(a: seq<T>, b: seq<T>, c: seq<T>)
    ensures (a + b) + c == a + (b + c)
  {
  }

  /** `xs.map(f).join("")`: the texts of the elements, in order, glued together. */
  function ConcatMap<T>(f: T -> string, xs: seq<T>): string {
    if |xs| == 0 then "" else f(xs[0]) + ConcatMap(f, xs[1..])
  }

  lemma {:induction false} ConcatMapAppend<T>(f: T -> string, xs: seq<T>, ys: seq<T>)
    ensures ConcatMap(f, xs + ys) == ConcatMap(f, xs) + ConcatMap(f, ys)
  {
    if |xs| == 0 {
      assert xs + ys == ys;
    } else {
      assert (xs + ys)[0] == xs[0];
      assert (xs + ys)[1..] == xs[1..] + ys;
      ConcatMapAppend(f, xs[1..], ys);
    }
  }

  /** Python slice `s[:n]` / JavaScript `s.substring(0, n)` for n >= 0. */
  function Take(s: string, n: nat): (r: string)
    ensures |r| == if |s| < n then |s| else n
    ensures StartsWith(s, r)
  {
    if |s| < n then s else s[..n]
  }

  // ---------------------------------------------------------------------------
  // Splitting

  /** Index of the first occurrence of `c`. */
  function IndexOf(s: string, c: char): (i: nat)
    requires c in s
    ensures i < |s| && s[i] == c && c !in s[..i]
  {
    if s[0] == c then 0 else 1 + IndexOf(s[1..], c)
  }

  /** Python `s.split(sep)` / JavaScript `s.split(sep)` for a one-character separator. */
  function Split(s: string, sep: char): (parts: seq<string>)
    ensures |parts| >= 1
    ensures forall k :: 0 <= k < |parts| ==> sep !in parts[k]
    decreases |s|
  {
    if sep !in s then [s]
    else
      var i := IndexOf(s, sep);
      [s[..i]] + Split(s[i + 1..], sep)
  }

  /** The inverse of `Split`: the parts glued back with the separator. */
  function Join(parts: seq<string>, sep: char): string
    requires |parts| >= 1
  {
    if |parts| == 1 then parts[0] else parts[0] + [sep] + Join(parts[1..], sep)
  }

  lemma {:induction false} SplitJoin(s: string, sep: char)
    ensures Join(Split(s, sep), sep) == s
    decreases |s|
  {
    if sep in s {
      var i := IndexOf(s, sep);
      var rest := s[i + 1..];
      SplitJoin(rest, sep);
      var parts := Split(rest, sep);
      assert Split(s, sep) == [s[..i]] + parts;
      assert ([s[..i]] + parts)[1..] == parts;
      assert Join(Split(s, sep), sep) == s[..i] + [sep] + Join(parts, sep);
      assert s == s[..i] + [sep] + rest;
    }
  }

  lemma {:induction false} SplitAround(a: string, sep: char, b: string)
    ensures Split(a + [sep] + b, sep) == Split(a, sep) + Split(b, sep)
    decreases |a|
  {
    var s := a + [sep] + b;
    if sep !in a {
      assert IndexOf(s, sep) == |a| by {
        assert s[..|a|] == a;
        IndexOfUnique(s, sep, |a|);
      }
      assert s[..|a|] == a;
      assert s[|a| + 1..] == b;
    } else {
      var i := IndexOf(a, sep);
      assert s[..i] == a[..i];
      IndexOfUnique(s, sep, i);
      assert s[i + 1..] == a[i + 1..] + [sep] + b;
      SplitAround(a[i + 1..], sep, b);
    }
  }

  lemma IndexOfUnique(s: string, c: char, i: nat)
    requires i < |s| && s[i] == c && c !in s[..i]
    ensures IndexOf(s, c) == i
  {
    var j := IndexOf(s, c);
    assert forall k :: 0 <= k < i ==> s[..i][k] == s[k];
    assert forall k :: 0 <= k < j ==> s[..j][k] == s[k];
  }

  /** Python `s.split(sep)[-1]`: the text after the last separator. */
  function LastSegment(s: string, sep: char): (r: string)
    ensures sep !in r
  {
    var parts := Split(s, sep);
    parts[|parts| - 1]
  }

  /** Python `s.split(sep)[0]`: the text before the first separator. */
  function FirstSegment(s: string, sep: char): (r: string)
    ensures sep !in r
    ensures StartsWith(s, r)
  {
    if sep in s then s[..IndexOf(s, sep)] else s
  }

  /** The last segment of `p + sep + d` is `d` whenever `d` has no separator. */
  lemma LastSegmentAfter(p: string, sep: char, d: string)
    requires sep !in d
    ensures LastSegment(p + [sep] + d, sep) == d
  {
    SplitAround(p, sep, d);
  }
}
