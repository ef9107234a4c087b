/**
 * `parseInt(s)` (radix omitted) and `parseFloat(s)`: both skip leading
 * whitespace, accept a sign, and read the longest numeric prefix, ignoring
 * whatever follows it ("95%" reads as 95, "0.5s" as 0.5). A string with no
 * numeric prefix reads as NaN. The readers scan the text by index.
 */
module JsParse {
  import opened JsCore
  import opened JsText

  /** Length of the run of whitespace in `s` that starts at index `i`: what the readers skip. */
  function SpacesFrom(s: string, i: nat): (k: nat)
    requires i <= |s|
    ensures i + k <= |s|
    ensures forall j :: i <= j < i + k ==> IsSpace(s[j])
    ensures i + k == |s| || !IsSpace(s[i + k])
    decreases |s| - i
  {
    if i < |s| && IsSpace(s[i]) then 1 + SpacesFrom(s, i + 1) else 0
  }

  predicate IsHexDigit(c: char)
  {
    IsDigit(c) || 'a' <= c <= 'f' || 'A' <= c <= 'F'
  }

  /** The value of a hexadecimal digit (0 for any other character). */
  function HexDigitValue(c: char): (v: nat)
    ensures v < 16
  {
    if IsDigit(c) then c as int - '0' as int
    else if 'a' <= c <= 'f' then c as int - 'a' as int + 10
    else if 'A' <= c <= 'F' then c as int - 'A' as int + 10
    else 0
  }

  /** Length of the run of hexadecimal digits in `s` that starts at index `i`. */
  function HexDigitsFrom(s: string, i: nat): (k: nat)
    requires i <= |s|
    ensures i + k <= |s|
    decreases |s| - i
  {
    if i < |s| && IsHexDigit(s[i]) then 1 + HexDigitsFrom(s, i + 1) else 0
  }

  /** The value of the decimal digits `s[a..b]`, most significant first. */
  function DigitsValue(s: string, a: nat, b: nat): nat
    requires a <= b <= |s|
    decreases b - a
  {
    if a == b then 0 else DigitsValue(s, a, b - 1) * 10 + DigitValue(s[b - 1])
  }

  /** The value of the hexadecimal digits `s[a..b]`. */
  function HexValue(s: string, a: nat, b: nat): nat
    requires a <= b <= |s|
    decreases b - a
  {
    if a == b then 0 else HexValue(s, a, b - 1) * 16 + HexDigitValue(s[b - 1])
  }

  /** The digits `s[a..b]` read after a decimal point, as a fraction. */
  function Fraction(s: string, a: nat, b: nat): (r: real)
    requires a <= b <= |s|
    ensures 0.0 <= r < 1.0
    decreases b - a
  {
    if a == b then 0.0 else (DigitValue(s[a]) as real + Fraction(s, a + 1, b)) / 10.0
  }

  /** Length of an optional sign at index `i`. */
  function SignAt(s: string, i: nat): (n: nat)
    requires i <= |s|
    ensures i + n <= |s|
  {
    if i < |s| && (s[i] == '-' || s[i] == '+') then 1 else 0
  }

  predicate NegativeAt(s: string, i: nat)
  {
    i < |s| && s[i] == '-'
  }

  /** The text `p` occurs in `s` at index `i`. */
  predicate TextAt(s: string, i: nat, p: string)
  {
    i + |p| <= |s| && forall j :: 0 <= j < |p| ==> s[i + j] == p[j]
  }

  /** `parseInt(s)`: NaN is `None`; a "0x" or "0X" prefix switches to base 16. */
  function ParseInt(s: string): Option<int>
  {
    var b := SpacesFrom(s, 0);
    var o := b + SignAt(s, b);
    var sign := if NegativeAt(s, b) then -1 else 1;
    if o + 2 <= |s| && s[o] == '0' && (s[o + 1] == 'x' || s[o + 1] == 'X') then
      var k := HexDigitsFrom(s, o + 2);
      if k == 0 then None else Some(sign * HexValue(s, o + 2, o + 2 + k))
    else
      var k := DigitsFrom(s, o);
      if k == 0 then None else Some(sign * DigitsValue(s, o, o + k))
  }

  /** The exponent an `e`/`E` part at index `i` denotes, or 0 when there is none (an `e` without digits is not read). */
  function ExponentAt(u: string, i: nat): int
    requires i <= |u|
  {
    if i < |u| && (u[i] == 'e' || u[i] == 'E') then
      var signed := i + 1 < |u| && (u[i + 1] == '-' || u[i + 1] == '+');
      var o := if signed then i + 2 else i + 1;
      var k := DigitsFrom(u, o);
      if k == 0 then 0
      else if signed && u[i + 1] == '-' then -(DigitsValue(u, o, o + k) as int)
      else DigitsValue(u, o, o + k)
    else 0
  }

  /** `m * 10 ** e`. */
  function Scale(m: real, e: int): (r: real)
    ensures e == 0 ==> r == m
    decreases if e < 0 then -e else e
  {
    if e == 0 then m
    else if e > 0 then Scale(m, e - 1) * 10.0
    else Scale(m, e + 1) / 10.0
  }

  /**
   * The magnitude `parseFloat` reads from index `o`: digits, an optional
   * point with digits, an optional exponent; `None` when no digit is read.
   */
  function DecimalMagnitude(u: string, o: nat): Option<real>
    requires o <= |u|
  {
    var ip := DigitsFrom(u, o);
    var p := o + ip;
    if p < |u| && u[p] == '.' then
      var fp := DigitsFrom(u, p + 1);
      if ip == 0 && fp == 0 then None
      else Some(Scale(DigitsValue(u, o, p) as real + Fraction(u, p + 1, p + 1 + fp), ExponentAt(u, p + 1 + fp)))
    else if ip == 0 then None
    else Some(Scale(DigitsValue(u, o, p) as real, ExponentAt(u, p)))
  }

  /** `parseFloat(s)`. */
  function ParseFloat(s: string): Num
  {
    var b := SpacesFrom(s, 0);
    var o := b + SignAt(s, b);
    if TextAt(s, o, "Infinity") then (if NegativeAt(s, b) then NegInfinity else PosInfinity)
    else match DecimalMagnitude(s, o)
      case None => NaN
      case Some(m) => Finite(if NegativeAt(s, b) then -m else m)
  }

  /** Digit values agree on two stretches of text with the same characters. */
  lemma {:induction false} DigitsValueSame(s: string, a: nat, t: string, c: nat, n: nat)
    requires a + n <= |s| && c + n <= |t|
    requires forall j :: a <= j < a + n ==> s[j] == t[j - a + c]
    ensures DigitsValue(s, a, a + n) == DigitsValue(t, c, c + n)
    decreases n
  {
    if n > 0 {
      DigitsValueSame(s, a, t, c, n - 1);
      assert s[a + n - 1] == t[c + n - 1];
    }
  }

  /** Fractions agree on two stretches of text with the same characters. */
  lemma {:induction false} FractionSame(s: string, a: nat, t: string, c: nat, n: nat)
    requires a + n <= |s| && c + n <= |t|
    requires forall j :: a <= j < a + n ==> s[j] == t[j - a + c]
    ensures Fraction(s, a, a + n) == Fraction(t, c, c + n)
    decreases n
  {
    if n > 0 {
      assert s[a] == t[c];
      FractionSame(s, a + 1, t, c + 1, n - 1);
    }
  }

  /** One more digit at the end multiplies the value by ten and adds the digit. */
  lemma {:induction false} DigitsValueAppend(e: string, c: char, d: string)
    requires d == e + [c]
    ensures DigitsValue(d, 0, |d|) == DigitsValue(e, 0, |e|) * 10 + DigitValue(c)
  {
    assert d[|e|] == c;
    forall j | 0 <= j < |e|
      ensures d[j] == e[j]
    {
    }
    DigitsValueSame(d, 0, e, 0, |e|);
  }

  /** Reading back the decimal text of a number gives the number. */
  lemma {:induction false} DigitsValueOfNatToText(n: nat)
    ensures DigitsValue(NatToText(n), 0, |NatToText(n)|) == n
  {
    if n >= 10 {
      DigitsValueOfNatToText(n / 10);
      var e := NatToText(n / 10);
      var c := DigitChar(n % 10);
      DigitsValueAppend(e, c, NatToText(n));
      assert DigitValue(c) == n % 10;
    }
  }

  /** The digit run of a printed number is the whole number, when no digit follows. */
  lemma {:induction false} PrintedRun(n: nat, rest: string, d: string, s: string)
    requires rest == [] || !IsDigit(rest[0])
    requires d == NatToText(n) && s == d + rest
    ensures DigitsFrom(s, 0) == |d| && DigitsValue(s, 0, |d|) == n
  {
    forall j | 0 <= j < |d|
      ensures s[j] == d[j] && IsDigit(s[j])
    {
    }
    if rest != [] {
      assert s[|d|] == rest[0];
    }
    DigitsFromRun(s, 0, |d|);
    DigitsValueSame(s, 0, d, 0, |d|);
    DigitsValueOfNatToText(n);
  }

  /** `parseInt` of a text that starts with a run of `k` decimal digits (and no "0x") is their value. */
  lemma {:induction false} ParseIntOfDigitRun(s: string, k: nat)
    requires s != [] && IsDigit(s[0])
    requires !(2 <= |s| && s[0] == '0' && (s[1] == 'x' || s[1] == 'X'))
    requires k <= |s| && DigitsFrom(s, 0) == k
    ensures ParseInt(s) == Some(DigitsValue(s, 0, k))
  {
    assert SpacesFrom(s, 0) == 0 && SignAt(s, 0) == 0 && !NegativeAt(s, 0);
  }

  /**
   * `parseInt` reads back a number the app printed, whatever non-numeric
   * text follows it: `parseInt("95%")` is 95.
   */
  lemma {:induction false} ParseIntReadsNatText(n: nat, suffix: string)
    requires suffix == [] || (!IsDigit(suffix[0]) && suffix[0] != 'x' && suffix[0] != 'X')
    ensures ParseInt(NatToText(n) + suffix) == Some(n)
  {
    var d := NatToText(n);
    var s := d + suffix;
    assert s[0] == d[0];
    assert !(2 <= |s| && s[0] == '0' && (s[1] == 'x' || s[1] == 'X')) by {
      if n >= 10 {
        assert s[1] == d[1];
      } else if |s| >= 2 {
        assert |d| == 1;
        assert s[1] == suffix[0];
      }
    }
    PrintedRun(n, suffix, d, s);
    ParseIntOfDigitRun(s, |d|);
  }

  /** The positions of "w.f" followed by `suffix`: the number, the point, the fraction, the rest. */
  lemma {:induction false} DecimalTextIndexes(w: nat, f: string, suffix: string, d: string, s: string)
    requires d == NatToText(w) && s == d + "." + f + suffix
    ensures |s| == |d| + 1 + |f| + |suffix|
    ensures s[|d|] == '.'
    ensures forall j :: |d| + 1 <= j < |d| + 1 + |f| ==> s[j] == f[j - |d| - 1]
    ensures suffix != [] ==> s[|d| + 1 + |f|] == suffix[0]
    ensures s == d + ("." + f + suffix)
  {
  }

  /** How `parseFloat` splits "w.f" followed by `suffix`: the number's digits, a point, the fraction's digits, no exponent. */
  lemma {:induction false} DecimalTextShape(w: nat, f: string, suffix: string, d: string, s: string)
    requires forall i :: 0 <= i < |f| ==> IsDigit(f[i])
    requires suffix == [] || (!IsDigit(suffix[0]) && suffix[0] != 'e' && suffix[0] != 'E')
    requires d == NatToText(w) && s == d + "." + f + suffix
    ensures DigitsFrom(s, 0) == |d| && DigitsValue(s, 0, |d|) == w
    ensures |d| < |s| && s[|d|] == '.'
    ensures |d| + 1 + |f| <= |s| && DigitsFrom(s, |d| + 1) == |f|
    ensures Fraction(s, |d| + 1, |d| + 1 + |f|) == Fraction(f, 0, |f|)
    ensures ExponentAt(s, |d| + 1 + |f|) == 0
  {
    DecimalTextIndexes(w, f, suffix, d, s);
    PrintedRun(w, "." + f + suffix, d, s);
    forall j | |d| + 1 <= j < |d| + 1 + |f|
      ensures IsDigit(s[j])
    {
      assert s[j] == f[j - |d| - 1];
    }
    DigitsFromRun(s, |d| + 1, |f|);
    FractionSame(s, |d| + 1, f, 0, |f|);
  }

  /** `parseFloat` of a text that starts with `p` digits, a point and `q` digits, and no exponent, is their decimal value. */
  lemma {:induction false} ParseFloatOfPointRun(s: string, p: nat, q: nat, v: real)
    requires s != [] && IsDigit(s[0])
    requires p < |s| && DigitsFrom(s, 0) == p && s[p] == '.'
    requires p + 1 + q <= |s| && DigitsFrom(s, p + 1) == q
    requires ExponentAt(s, p + 1 + q) == 0
    requires v == DigitsValue(s, 0, p) as real + Fraction(s, p + 1, p + 1 + q)
    ensures ParseFloat(s) == Finite(v)
  {
    assert SpacesFrom(s, 0) == 0 && SignAt(s, 0) == 0 && !NegativeAt(s, 0);
    assert !TextAt(s, 0, "Infinity") by {
      assert "Infinity"[0] == 'I';
    }
  }

  /** `parseFloat` reads "w.f" as w plus the decimal fraction 0.f, when what follows starts with neither a digit nor an exponent. */
  lemma {:induction false} ParseFloatReadsDecimalText(w: nat, f: string, suffix: string)
    requires forall i :: 0 <= i < |f| ==> IsDigit(f[i])
    requires suffix == [] || (!IsDigit(suffix[0]) && suffix[0] != 'e' && suffix[0] != 'E')
    ensures ParseFloat(NatToText(w) + "." + f + suffix) == Finite(w as real + Fraction(f, 0, |f|))
  {
    DecimalTextValue(w, f, suffix, NatToText(w), NatToText(w) + "." + f + suffix);
  }

  lemma {:induction false} DecimalTextValue(w: nat, f: string, suffix: string, d: string, s: string)
    requires forall i :: 0 <= i < |f| ==> IsDigit(f[i])
    requires suffix == [] || (!IsDigit(suffix[0]) && suffix[0] != 'e' && suffix[0] != 'E')
    requires d == NatToText(w) && s == d + "." + f + suffix
    ensures ParseFloat(s) == Finite(w as real + Fraction(f, 0, |f|))
  {
    DecimalTextShape(w, f, suffix, d, s);
    assert s[0] == d[0];
    ParseFloatOfPointRun(s, |d|, |f|, w as real + Fraction(f, 0, |f|));
  }
}
