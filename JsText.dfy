/**
 * The string operations of JavaScript that the pages use to compare spoken
 * answers: the `\s` character class, `toLowerCase`, `replace(/\s+/g, '')`
 * and `includes`.
 */
module JsText {

  /** The characters matched by `\s`: ECMAScript WhiteSpace and LineTerminator. */
  predicate IsSpace(c: char)
  {
    || c == ' ' || c == '\t' || c == '\n' || c == '\U{B}' || c == '\U{C}' || c == '\r'
    || c == '\U{A0}' || c == '\U{1680}' || ('\U{2000}' <= c <= '\U{200A}')
    || c == '\U{2028}' || c == '\U{2029}' || c == '\U{202F}' || c == '\U{205F}'
    || c == '\U{3000}' || c == '\U{FEFF}'
  }

  predicate IsUpper(c: char) { 'A' <= c <= 'Z' }

  predicate IsLower(c: char) { 'a' <= c <= 'z' }

  predicate IsDigit(c: char) { '0' <= c <= '9' }

  /** `toLowerCase` on one character (ASCII letters only). */
  function LowerChar(c: char): (r: char)
    ensures IsUpper(c) ==> IsLower(r) && r as int == c as int + 32
    ensures !IsUpper(c) ==> r == c
  {
    if IsUpper(c) then (c as int + 32) as char else c
  }

  /** `toLowerCase`. */
  function Lower(s: string): (r: string)
    ensures |r| == |s|
    ensures forall i :: 0 <= i < |s| ==> r[i] == LowerChar(s[i])
  {
    if s == [] then [] else [LowerChar(s[0])] + Lower(s[1..])
  }

  /** `replace(/\s+/g, '')`: every whitespace character removed. */
  function RemoveSpaces(s: string): (r: string)
    ensures |r| <= |s|
    ensures forall i :: 0 <= i < |r| ==> !IsSpace(r[i])
  {
    if s == [] then []
    else if IsSpace(s[0]) then RemoveSpaces(s[1..])
    else [s[0]] + RemoveSpaces(s[1..])
  }

  /** The normalisation both test pages apply to a transcript. */
  function NormalizeTranscript(transcript: string): string
  {
    RemoveSpaces(Lower(transcript))
  }

  predicate IsPrefix(p: string, s: string)
  {
    |p| <= |s| && s[..|p|] == p
  }

  /** `s.includes(sub)`, by scanning the start positions left to right. */
  function Includes(s: string, sub: string): bool
    decreases |s|
  {
    if IsPrefix(sub, s) then true
    else if s == [] then false
    else Includes(s[1..], sub)
  }

  /** Lowering neither creates nor removes whitespace, so the two steps commute. */
  lemma {:induction false} LowerRemoveSpacesCommute(s: string)
    ensures RemoveSpaces(Lower(s)) == Lower(RemoveSpaces(s))
  {
    if s != [] {
      LowerRemoveSpacesCommute(s[1..]);
      assert Lower(s)[1..] == Lower(s[1..]);
    }
  }

  /** `c` occurs somewhere in `s`. */
  predicate Occurs(s: string, c: char)
  {
    exists i :: 0 <= i < |s| && s[i] == c
  }

  lemma OccursUnfold(s: string, c: char)
    requires s != []
    ensures Occurs(s, c) <==> s[0] == c || Occurs(s[1..], c)
  {
    if Occurs(s, c) && s[0] != c {
      var i :| 0 <= i < |s| && s[i] == c;
      assert s[1..][i - 1] == c;
    }
    if Occurs(s[1..], c) {
      var i :| 0 <= i < |s[1..]| && s[1..][i] == c;
      assert s[i + 1] == c;
    }
  }

  /** `includes` of a one-character string: that character occurs somewhere. */
  lemma {:induction false} IncludesChar(s: string, c: char)
    ensures Includes(s, [c]) <==> Occurs(s, c)
  {
    if s != [] {
      OccursUnfold(s, c);
      IncludesChar(s[1..], c);
    }
  }

  /** A character survives whitespace removal exactly when it occurs and is not whitespace. */
  lemma {:induction false} RemoveSpacesKeeps(s: string, c: char)
    ensures Occurs(RemoveSpaces(s), c) <==> !IsSpace(c) && Occurs(s, c)
  {
    if s != [] {
      RemoveSpacesKeeps(s[1..], c);
      OccursUnfold(s, c);
      if !IsSpace(s[0]) {
        assert RemoveSpaces(s) == [s[0]] + RemoveSpaces(s[1..]);
        OccursUnfold(RemoveSpaces(s), c);
        assert RemoveSpaces(s)[1..] == RemoveSpaces(s[1..]);
      }
    }
  }

  /** Length of the run of decimal digits in `s` that starts at index `i`. */
  function DigitsFrom(s: string, i: nat): (k: nat)
    requires i <= |s|
    ensures i + k <= |s|
    ensures k == 0 <==> i == |s| || !IsDigit(s[i])
    decreases |s| - i
  {
    if i < |s| && IsDigit(s[i]) then 1 + DigitsFrom(s, i + 1) else 0
  }

  /** The run is made of digits and stops at the end or at a non-digit. */
  lemma {:induction false} DigitsFromDigits(s: string, i: nat)
    requires i <= |s|
    ensures forall j :: i <= j < i + DigitsFrom(s, i) ==> IsDigit(s[j])
    ensures i + DigitsFrom(s, i) == |s| || !IsDigit(s[i + DigitsFrom(s, i)])
    decreases |s| - i
  {
    if i < |s| && IsDigit(s[i]) {
      DigitsFromDigits(s, i + 1);
    }
  }

  /** `n` digits from index `a`, then the end or a non-digit, make a run of length `n`. */
  lemma {:induction false} DigitsFromRun(s: string, a: nat, n: nat)
    requires a + n <= |s|
    requires forall j :: a <= j < a + n ==> IsDigit(s[j])
    requires a + n == |s| || !IsDigit(s[a + n])
    ensures DigitsFrom(s, a) == n
    decreases n
  {
    if n > 0 {
      assert IsDigit(s[a]);
      DigitsFromRun(s, a + 1, n - 1);
    }
  }

  /** Decimal text of a natural number, as template literals print it. */
  function NatToText(n: nat): (r: string)
    ensures |r| >= 1
    ensures forall i :: 0 <= i < |r| ==> IsDigit(r[i])
  {
    if n < 10 then [DigitChar(n)] else NatToText(n / 10) + [DigitChar(n % 10)]
  }

  /** The value of a decimal digit (0 for any other character). */
  function DigitValue(c: char): (v: nat)
    ensures v < 10
  {
    if IsDigit(c) then c as int - '0' as int else 0
  }

  function DigitChar(d: nat): (c: char)
    requires d < 10
    ensures IsDigit(c) && DigitValue(c) == d
  {
    ('0' as int + d) as char
  }
}
