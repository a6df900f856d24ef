/** The pieces of Python's `str` behaviour the service relies on: `split`, `join`, `rstrip`,
    `startswith`, `lower`/`upper`, `str(int)` and `int(str)`. Strings are sequences of
    code points, as in Python 3. */
module Text {
  import opened Wrappers

  // ---------------------------------------------------------------------------------------
  // Whitespace, as `str.isspace` and the argument-less `str.split()` and `int()` see it.
  // ---------------------------------------------------------------------------------------

  predicate IsSpace(c: char) {
    ('\t' <= c <= '\r') || c == ' ' || ('\U{1c}' <= c <= '\U{1f}') || c == '\U{85}' ||
    c == '\U{a0}' || c == '\U{1680}' || ('\U{2000}' <= c <= '\U{200a}') || c == '\U{2028}' ||
    c == '\U{2029}' || c == '\U{202f}' || c == '\U{205f}' || c == '\U{3000}'
  }

  predicate StartsWith(s: string, prefix: string) {
    |prefix| <= |s| && s[..|prefix|] == prefix
  }

  // ---------------------------------------------------------------------------------------
  // `s.split(sep)` with an explicit one-character separator, and `sep.join(parts)`.
  // ---------------------------------------------------------------------------------------

  /** `s.split(sep)`: the pieces between occurrences of `sep`, empty pieces included. */
  function SplitOn(s: string, sep: char): (parts: seq<string>)
    ensures |parts| >= 1
  {
    if s == [] then [[]]
    else if s[0] == sep then [[]] + SplitOn(s[1..], sep)
    else
      var rest := SplitOn(s[1..], sep);
      [[s[0]] + rest[0]] + rest[1..]
  }

  /** `sep.join(parts)`. */
  function JoinWith(parts: seq<string>, sep: string): string {
    if |parts| == 0 then []
    else if |parts| == 1 then parts[0]
    else parts[0] + sep + JoinWith(parts[1..], sep)
  }

  lemma {:induction false} SplitWithoutSeparator(a: string, sep: char)
    requires sep !in a
    ensures SplitOn(a, sep) == [a]
  {
    if a != [] {
      SplitWithoutSeparator(a[1..], sep);
      assert [a[0]] + a[1..] == a;
    }
  }

  lemma {:induction false} SplitAtFirstSeparator(a: string, sep: char, rest: string)
    requires sep !in a
    ensures SplitOn(a + [sep] + rest, sep) == [a] + SplitOn(rest, sep)
  {
    if a == [] {
      assert a + [sep] + rest == [sep] + rest;
      assert ([sep] + rest)[1..] == rest;
    } else {
      SplitAtFirstSeparator(a[1..], sep, rest);
      assert (a + [sep] + rest)[1..] == a[1..] + [sep] + rest;
      assert [a[0]] + a[1..] == a;
    }
  }

  /** Splitting undoes joining whenever no part contains the separator. */
  lemma {:induction false} SplitJoin(parts: seq<string>, sep: char)
    requires |parts| >= 1
    requires forall i :: 0 <= i < |parts| ==> sep !in parts[i]
    ensures SplitOn(JoinWith(parts, [sep]), sep) == parts
  {
    if |parts| == 1 {
      SplitWithoutSeparator(parts[0], sep);
    } else {
      SplitJoin(parts[1..], sep);
      SplitAtFirstSeparator(parts[0], sep, JoinWith(parts[1..], [sep]));
      assert [parts[0]] + parts[1..] == parts;
    }
  }

  // ---------------------------------------------------------------------------------------
  // `s.rstrip(c)` and `c * n`.
  // ---------------------------------------------------------------------------------------

  /** `s.rstrip(c)` for a single character `c`. */
  function StripTrailing(s: string, c: char): (r: string)
    ensures |r| <= |s| && r == s[..|r|]
    ensures r == [] || r[|r| - 1] != c
  {
    if s != [] && s[|s| - 1] == c then StripTrailing(s[..|s| - 1], c) else s
  }

  /** `c * n`. */
  function Repeat(c: char, n: nat): (r: string)
    ensures |r| == n && forall i :: 0 <= i < n ==> r[i] == c
  {
    if n == 0 then [] else Repeat(c, n - 1) + [c]
  }

  /** Stripping removes exactly a run of `c`: putting the run back gives the original. */
  lemma {:induction false} StripTrailingRestores(s: string, c: char)
    ensures s == StripTrailing(s, c) + Repeat(c, |s| - |StripTrailing(s, c)|)
  {
    if s != [] && s[|s| - 1] == c {
      var t := s[..|s| - 1];
      StripTrailingRestores(t, c);
      assert StripTrailing(s, c) == StripTrailing(t, c);
      assert s == t + [c];
    }
  }

  // ---------------------------------------------------------------------------------------
  // `s.split()` with no argument: the maximal runs of non-whitespace.
  // ---------------------------------------------------------------------------------------

  function DropSpaces(s: string): (r: string)
    ensures |r| <= |s| && r == s[|s| - |r|..]
    ensures r == [] || !IsSpace(r[0])
  {
    if s != [] && IsSpace(s[0]) then DropSpaces(s[1..]) else s
  }

  function TakeWord(s: string): (r: string)
    ensures |r| <= |s| && r == s[..|r|]
    ensures s != [] && !IsSpace(s[0]) ==> |r| > 0
    ensures forall i :: 0 <= i < |r| ==> !IsSpace(r[i])
  {
    if s != [] && !IsSpace(s[0]) then [s[0]] + TakeWord(s[1..]) else []
  }

  /** A non-empty run of non-whitespace characters. */
  predicate IsWord(w: string) {
    w != [] && forall j :: 0 <= j < |w| ==> !IsSpace(w[j])
  }

  lemma PrependWord(w: string, rest: seq<string>)
    requires IsWord(w) && forall i :: 0 <= i < |rest| ==> IsWord(rest[i])
    ensures forall i :: 0 <= i < |[w] + rest| ==> IsWord(([w] + rest)[i])
  {
  }

  /** `s.split()`: non-empty words without whitespace, no more of them than characters. */
  function Words(s: string): (r: seq<string>)
    ensures |r| <= |s|
    ensures forall i :: 0 <= i < |r| ==> IsWord(r[i])
    decreases |s|
  {
    var t := DropSpaces(s);
    if t == [] then []
    else
      var w := TakeWord(t);
      var rest := Words(t[|w|..]);
      PrependWord(w, rest);
      [w] + rest
  }

  lemma {:induction false} TakeWordOfWord(a: string, b: string)
    requires forall i :: 0 <= i < |a| ==> !IsSpace(a[i])
    requires b == [] || IsSpace(b[0])
    ensures TakeWord(a + b) == a
  {
    if a != [] {
      TakeWordOfWord(a[1..], b);
      assert (a + b)[1..] == a[1..] + b;
    }
  }

  /** A word followed by whitespace contributes exactly that word to `split()`. */
  lemma WordsAfterWord(a: string, b: string)
    requires |a| > 0 && forall i :: 0 <= i < |a| ==> !IsSpace(a[i])
    requires |b| > 0 && IsSpace(b[0])
    ensures Words(a + b) == [a] + Words(b)
  {
    TakeWordOfWord(a, b);
    assert DropSpaces(a + b) == a + b;
    assert (a + b)[|a|..] == b;
    assert DropSpaces(b) == DropSpaces(b[1..]);
  }

  /** Leading whitespace does not change `split()`. */
  lemma WordsAfterSpace(c: char, s: string)
    requires IsSpace(c)
    ensures Words([c] + s) == Words(s)
  {
    assert ([c] + s)[1..] == s;
  }

  // ---------------------------------------------------------------------------------------
  // Case mapping. Only ASCII letters are mapped.
  // ---------------------------------------------------------------------------------------

  function LowerChar(c: char): char {
    if 'A' <= c <= 'Z' then (c as int + 32) as char else c
  }

  function UpperChar(c: char): char {
    if 'a' <= c <= 'z' then (c as int - 32) as char else c
  }

  /** `s.lower()` on ASCII letters. */
  function Lower(s: string): (r: string)
    ensures |r| == |s| && forall i :: 0 <= i < |s| ==> r[i] == LowerChar(s[i])
  {
    seq(|s|, i requires 0 <= i < |s| => LowerChar(s[i]))
  }

  /** `s.upper()` on ASCII letters. */
  function Upper(s: string): (r: string)
    ensures |r| == |s| && forall i :: 0 <= i < |s| ==> r[i] == UpperChar(s[i])
  {
    seq(|s|, i requires 0 <= i < |s| => UpperChar(s[i]))
  }

  // ---------------------------------------------------------------------------------------
  // `str(n)` and `int(s)` for decimal integers.
  // ---------------------------------------------------------------------------------------

  predicate IsDigit(c: char) {
    '0' <= c <= '9'
  }

  function DigitChar(d: nat): (c: char)
    requires d < 10
    ensures IsDigit(c)
  {
    ('0' as int + d) as char
  }

  function DigitValue(c: char): nat
    requires IsDigit(c)
  {
    c as int - '0' as int
  }

  /** `str(n)` for a non-negative integer. */
  function NatToString(n: nat): (s: string)
    ensures |s| > 0
    ensures forall i :: 0 <= i < |s| ==> IsDigit(s[i])
  {
    if n < 10 then [DigitChar(n)] else NatToString(n / 10) + [DigitChar(n % 10)]
  }

  /** `str(i)` for any integer. */
  function IntToString(i: int): string {
    if i < 0 then "-" + NatToString(-i) else NatToString(i)
  }

  /** Digits, with single underscores allowed between digits, as `int()` accepts them: it
      starts and ends with a digit, and of two neighbouring characters one is a digit. */
  predicate DigitGroups(d: string) {
    |d| > 0 && IsDigit(d[0]) && IsDigit(d[|d| - 1]) &&
    (forall i :: 0 <= i < |d| ==> IsDigit(d[i]) || d[i] == '_') &&
    (forall i, j :: 0 <= i < |d| && 0 <= j < |d| && j == i + 1 ==> IsDigit(d[i]) || IsDigit(d[j]))
  }

  /** CPython's default `sys.get_int_max_str_digits()`: `int()` raises `ValueError` on
      decimal text with more digits, and `str()` on an integer with more digits. */
  const MaxStrDigits: nat := 4300

  /** The number of digits in `d`, underscores not counted, as CPython counts them against
      `MaxStrDigits`. */
  function DigitCount(d: string): (n: nat)
    ensures n <= |d|
  {
    if d == [] then 0
    else DigitCount(d[..|d| - 1]) + (if IsDigit(d[|d| - 1]) then 1 else 0)
  }

  /** Digit groups that `int()` converts: no more than `MaxStrDigits` digits. */
  predicate Numeral(d: string) {
    DigitGroups(d) && DigitCount(d) <= MaxStrDigits
  }

  /** `str(i)` of an integer is within the limit, so that `str()` does not raise. */
  predicate WithinStrDigits(i: int) {
    |NatToString(if i < 0 then -i else i)| <= MaxStrDigits
  }

  /** The decimal value of the digits in `d`, underscores ignored. */
  function DigitsValue(d: string): nat {
    if d == [] then 0
    else if IsDigit(d[|d| - 1]) then DigitsValue(d[..|d| - 1]) * 10 + DigitValue(d[|d| - 1])
    else DigitsValue(d[..|d| - 1])
  }

  function DropTrailingSpaces(s: string): string {
    if s != [] && IsSpace(s[|s| - 1]) then DropTrailingSpaces(s[..|s| - 1]) else s
  }

  /** `s.strip()`. */
  function Trim(s: string): string {
    DropTrailingSpaces(DropSpaces(s))
  }

  /** `int(s)` for base-10 text: surrounding whitespace, an optional sign, digit groups of at
      most `MaxStrDigits` digits. `None` is the `ValueError` that `int()` raises on anything
      else. A leading '-' gives a value not above zero; unsigned or '+' text gives one not
      below zero. */
  function ParseInt(s: string): (r: Option<int>)
    ensures r.Some? <==>
      (Numeral(Trim(s)) ||
       (|Trim(s)| > 0 && (Trim(s)[0] == '+' || Trim(s)[0] == '-') && Numeral(Trim(s)[1..])))
    ensures r.Some? && Trim(s)[0] == '-' ==> r.value <= 0
    ensures r.Some? && Trim(s)[0] != '-' ==> r.value >= 0
  {
    var t := Trim(s);
    if |t| > 0 && (t[0] == '+' || t[0] == '-') then
      var v: int := DigitsValue(t[1..]);
      if Numeral(t[1..]) then Some(if t[0] == '-' then -v else v) else None
    else if Numeral(t) then Some(DigitsValue(t))
    else None
  }

  lemma {:induction false} NatToStringValue(n: nat)
    ensures DigitsValue(NatToString(n)) == n
  {
    if n >= 10 {
      NatToStringValue(n / 10);
      var s := NatToString(n / 10) + [DigitChar(n % 10)];
      assert s[..|s| - 1] == NatToString(n / 10);
    }
  }

  lemma {:induction false} TrimUnpadded(s: string)
    requires |s| > 0 && !IsSpace(s[0]) && !IsSpace(s[|s| - 1])
    ensures Trim(s) == s
  {
    assert DropSpaces(s) == s;
  }

  /** Every character of text made of digits counts against the limit. */
  lemma {:induction false} DigitCountOfDigits(d: string)
    requires forall i :: 0 <= i < |d| ==> IsDigit(d[i])
    ensures DigitCount(d) == |d|
  {
    if d != [] {
      DigitCountOfDigits(d[..|d| - 1]);
    }
  }

  /** A written count is digit groups, and `int()` converts it exactly when `str()` could
      write it. */
  lemma {:induction false} NatTextIsDigits(n: nat)
    ensures DigitGroups(NatToString(n))
    ensures Numeral(NatToString(n)) <==> |NatToString(n)| <= MaxStrDigits
  {
    var digits := NatToString(n);
    assert IsDigit(digits[0]) && IsDigit(digits[|digits| - 1]);
    DigitCountOfDigits(digits);
  }

  /** Digit groups parse to their value, unless they hold more digits than the limit. */
  lemma {:induction false} ParseUnsigned(t: string, v: nat)
    requires DigitGroups(t) && DigitsValue(t) == v
    ensures ParseInt(t) == if DigitCount(t) <= MaxStrDigits then Some(v) else None
  {
    assert IsDigit(t[0]) && IsDigit(t[|t| - 1]);
    TrimUnpadded(t);
    assert t[0] != '+' && t[0] != '-';
  }

  /** A minus sign before digit groups parses to the negated value, unless the groups hold
      more digits than the limit. */
  lemma {:induction false} ParseNegative(d: string, v: nat)
    requires DigitGroups(d) && DigitsValue(d) == v
    ensures ParseInt("-" + d) == if DigitCount(d) <= MaxStrDigits then Some(-(v as int)) else None
  {
    var t := "-" + d;
    assert t[1..] == d && t[|t| - 1] == d[|d| - 1];
    TrimUnpadded(t);
  }

  /** `int(str(i)) == i`: the decimal text of every integer `str()` can write parses back to
      it; the text of a longer one is refused. */
  lemma {:induction false} ParseIntToString(i: int)
    ensures ParseInt(IntToString(i)) == if WithinStrDigits(i) then Some(i) else None
  {
    var n: nat := if i < 0 then -i else i;
    NatTextIsDigits(n);
    NatToStringValue(n);
    if i < 0 {
      ParseNegative(NatToString(n), n);
    } else {
      ParseUnsigned(NatToString(n), n);
    }
  }
}
