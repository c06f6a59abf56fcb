/**
 * The handful of Python `str` operations the tracker uses, on ASCII text:
 * case mapping, substring search and replacement, clamped slicing and `int()`.
 */
module Strings {
  import opened Wrappers

  predicate IsAsciiLower(c: char) { 'a' <= c <= 'z' }

  predicate IsAsciiUpper(c: char) { 'A' <= c <= 'Z' }

  predicate IsDigit(c: char) { '0' <= c <= '9' }

  function UpperChar(c: char): char {
    if IsAsciiLower(c) then (c as int - 32) as char else c
  }

  function LowerChar(c: char): char {
    if IsAsciiUpper(c) then (c as int + 32) as char else c
  }

  /** `s.upper()` */
  function Upper(s: string): (u: string)
    ensures |u| == |s|
    ensures forall i :: 0 <= i < |s| ==> !IsAsciiLower(u[i])
    ensures forall i :: 0 <= i < |s| ==> u[i] == UpperChar(s[i])
  {
    seq(|s|, i requires 0 <= i < |s| => UpperChar(s[i]))
  }

  /** `s.lower()` */
  function Lower(s: string): (l: string)
    ensures |l| == |s|
    ensures forall i :: 0 <= i < |s| ==> !IsAsciiUpper(l[i])
    ensures forall i :: 0 <= i < |s| ==> l[i] == LowerChar(s[i])
  {
    seq(|s|, i requires 0 <= i < |s| => LowerChar(s[i]))
  }

  /** Upper-casing text that has no lower-case letter leaves it unchanged. */
  lemma UpperOfUpper(s: string)
    requires forall i :: 0 <= i < |s| ==> !IsAsciiLower(s[i])
    ensures Upper(s) == s
  {
  }

  /** `s.startswith(p)` */
  predicate StartsWith(s: string, p: string) {
    |p| <= |s| && s[..|p|] == p
  }

  /** `sub in s`, defined by walking the suffixes of `s`. */
  predicate Contains(s: string, sub: string)
    decreases |s|
  {
    StartsWith(s, sub) || (|s| > 0 && Contains(s[1..], sub))
  }

  /**
   * `s.find(sub)`: the first position where `sub` occurs, or -1.
   */
  function Find(s: string, sub: string): (r: int)
    ensures -1 <= r <= |s|
    ensures r >= 0 ==> StartsWith(s[r..], sub)
    ensures r >= 0 ==> forall j :: 0 <= j < r ==> !StartsWith(s[j..], sub)
    ensures r == -1 ==> forall j :: 0 <= j <= |s| - |sub| ==> !StartsWith(s[j..], sub)
    decreases |s|
  {
    assert s[0..] == s;
    if StartsWith(s, sub) then 0
    else if |s| == 0 then -1
    else
      var k := Find(s[1..], sub);
      assert forall j :: 1 <= j <= |s| ==> s[1..][j - 1..] == s[j..];
      if k == -1 then -1 else k + 1
  }

  /** `s.replace(pat, new)`: every non-overlapping occurrence of `pat`, scanned left to right. */
  function Replace(s: string, pat: string, rep: string): (r: string)
    requires pat != ""
    ensures !Contains(s, pat) ==> r == s
    decreases |s|
  {
    if |s| < |pat| then s
    else if s[..|pat|] == pat then rep + Replace(s[|pat|..], pat, rep)
    else [s[0]] + Replace(s[1..], pat, rep)
  }

  /** Python slicing `s[i:j]` with non-negative bounds: bounds are clamped to the length. */
  function Slice(s: string, i: nat, j: nat): (r: string)
    ensures i <= j <= |s| ==> r == s[i..j]
    ensures |r| <= |s|
  {
    var lo := if i <= |s| then i else |s|;
    var hi := if j <= |s| then j else |s|;
    if lo >= hi then "" else s[lo..hi]
  }

  /** The characters `int()` and `str.strip()` skip as white space (ASCII range). */
  predicate IsSpace(c: char) {
    c == ' ' || c == '\t' || c == '\n' || c == '\r' || c == '\U{000b}' || c == '\U{000c}'
    || ('\U{001c}' <= c <= '\U{001f}')
  }

  /** Every character of `s` is white space. */
  predicate AllSpace(s: string) {
    forall k :: 0 <= k < |s| ==> IsSpace(s[k])
  }

  predicate IsSuffix(r: string, s: string) {
    |r| <= |s| && r == s[|s| - |r|..]
  }

  predicate IsPrefix(r: string, s: string) {
    |r| <= |s| && r == s[..|r|]
  }

  function StripLeft(s: string): (r: string)
    ensures |r| <= |s|
    ensures r != "" ==> !IsSpace(r[0])
    decreases |s|
  {
    if s != "" && IsSpace(s[0]) then StripLeft(s[1..]) else s
  }

  function StripRight(s: string): (r: string)
    ensures |r| <= |s|
    ensures r != "" ==> !IsSpace(r[|r| - 1])
    decreases |s|
  {
    if s != "" && IsSpace(s[|s| - 1]) then StripRight(s[..|s| - 1]) else s
  }

  /** `lstrip()` removes a prefix made only of white space: what is left is a suffix of the input. */
  lemma {:induction false} StripLeftRemovesSpace(s: string)
    ensures IsSuffix(StripLeft(s), s)
    ensures AllSpace(s[..|s| - |StripLeft(s)|])
    decreases |s|
  {
    if s != "" && IsSpace(s[0]) {
      StripLeftRemovesSpace(s[1..]);
      var r := StripLeft(s[1..]);
      assert s[1..][..|s| - 1 - |r|] == s[1..|s| - |r|];
      assert s[|s| - |r|..] == s[1..][|s| - 1 - |r|..];
    } else {
      assert s[..0] == "";
    }
  }

  /** `rstrip()` removes a suffix made only of white space: what is left is a prefix of the input. */
  lemma {:induction false} StripRightRemovesSpace(s: string)
    ensures IsPrefix(StripRight(s), s)
    ensures AllSpace(s[|StripRight(s)|..])
    decreases |s|
  {
    if s != "" && IsSpace(s[|s| - 1]) {
      StripRightRemovesSpace(s[..|s| - 1]);
      var r := StripRight(s[..|s| - 1]);
      assert s[..|s| - 1][|r|..] == s[|r|..|s| - 1];
      assert s[..|r|] == s[..|s| - 1][..|r|];
    } else {
      assert s[|s|..] == "";
    }
  }

  predicate AllDigits(s: string) {
    forall i :: 0 <= i < |s| ==> IsDigit(s[i])
  }

  function DigitValue(c: char): int
    requires IsDigit(c)
  {
    c as int - '0' as int
  }

  /** The decimal value of a digit string, most significant digit first. */
  function DigitsValue(s: string): (n: nat)
    requires AllDigits(s)
    decreases |s|
  {
    if s == "" then 0 else 10 * DigitsValue(s[..|s| - 1]) + DigitValue(s[|s| - 1])
  }

  /**
   * `int(s)` for a decimal literal: surrounding white space, an optional sign,
   * then one or more digits. Anything else raises ValueError, modelled as None.
   * (Underscores between digits are not modelled; inside the two-character
   * slices this is applied to, no underscore can be valid.)
   */
  function ParseInt(s: string): Option<int> {
    var t := StripRight(StripLeft(s));
    var neg := t != "" && t[0] == '-';
    var body := if t != "" && (t[0] == '-' || t[0] == '+') then t[1..] else t;
    if body == "" || !AllDigits(body) then None
    else Some(if neg then -(DigitsValue(body) as int) else DigitsValue(body))
  }

  /** `int()` of two decimal digits is their two-digit value. */
  lemma ParseTwoDigits(s: string)
    requires |s| == 2 && IsDigit(s[0]) && IsDigit(s[1])
    ensures ParseInt(s) == Some(10 * DigitValue(s[0]) + DigitValue(s[1]))
  {
    assert StripLeft(s) == s;
    assert StripRight(s) == s;
    assert DigitsValue(s[..1]) == DigitValue(s[0]) by {
      assert s[..1][..0] == "";
    }
  }

  /** `int()` of a single decimal digit is its value. */
  lemma ParseOneDigit(s: string)
    requires |s| == 1 && IsDigit(s[0])
    ensures ParseInt(s) == Some(DigitValue(s[0]))
  {
    assert StripLeft(s) == s;
    assert StripRight(s) == s;
    assert AllDigits(s);
    assert DigitsValue(s) == 10 * DigitsValue(s[..0]) + DigitValue(s[0]);
    assert s[..0] == "";
  }

  /** A slice holding a letter is never a valid integer literal. */
  lemma ParseIntRejectsLetter(s: string, i: nat)
    requires i < |s| && (IsAsciiUpper(s[i]) || IsAsciiLower(s[i]))
    ensures ParseInt(s).None?
  {
    var t := StripRight(StripLeft(s));
    var body := if t != "" && (t[0] == '-' || t[0] == '+') then t[1..] else t;
    StripKeeps(s, i);
    var k :| 0 <= k < |t| && t[k] == s[i];
    var m := if t[0] == '-' || t[0] == '+' then k - 1 else k;
    assert 0 <= m < |body| && body[m] == s[i];
  }

  /** A non-space character survives stripping. */
  lemma {:induction false} StripKeeps(s: string, i: nat)
    requires i < |s| && !IsSpace(s[i])
    ensures exists k :: 0 <= k < |StripRight(StripLeft(s))| && StripRight(StripLeft(s))[k] == s[i]
  {
    var j := StripLeftKeeps(s, i);
    var k := StripRightKeeps(StripLeft(s), j);
  }

  lemma {:induction false} StripLeftKeeps(s: string, i: nat) returns (j: nat)
    requires i < |s| && !IsSpace(s[i])
    ensures j < |StripLeft(s)| && StripLeft(s)[j] == s[i]
    decreases |s|
  {
    if s != "" && IsSpace(s[0]) {
      assert i > 0;
      j := StripLeftKeeps(s[1..], i - 1);
    } else {
      j := i;
    }
  }

  lemma {:induction false} StripRightKeeps(s: string, i: nat) returns (k: nat)
    requires i < |s| && !IsSpace(s[i])
    ensures k < |StripRight(s)| && StripRight(s)[k] == s[i]
    decreases |s|
  {
    if s != "" && IsSpace(s[|s| - 1]) {
      assert i < |s| - 1;
      k := StripRightKeeps(s[..|s| - 1], i);
    } else {
      k := i;
    }
  }
}
