/**
 * `formatSpeech`: the chain of three global regular-expression
 * replacements every page applies to a sentence before speaking it.
 *
 *   1. `/([.!?]) /g`  becomes `'$1, '` on the peripheral and gaze results
 *      pages, and `'$1 '` (no change) on the acuity page;
 *   2. `/(\d+)/g`     becomes `' $1 '`: every maximal digit run is
 *      surrounded by single spaces;
 *   3. `/([,]) /g`    becomes `'$1 '`, which changes nothing.
 *
 * A global replacement scans left to right and never re-reads what it has
 * just written, which the recursive definitions below follow.
 */
module Speech {
  import opened JsText

  const PauseMarks: set<char> := {'.', '!', '?'}

  /**
   * `s.replace(/([m]) /g, '$1' + tail)` for the marks `m`: a mark directly
   * followed by a space is kept and the space is replaced by `tail`.
   */
  function RewritePause(s: string, marks: set<char>, tail: string): string
    decreases |s|
  {
    if |s| >= 2 && s[0] in marks && s[1] == ' ' then [s[0]] + tail + RewritePause(s[2..], marks, tail)
    else if s == [] then []
    else [s[0]] + RewritePause(s[1..], marks, tail)
  }

  /** `s.replace(/(\d+)/g, ' $1 ')`. */
  function SpaceDigits(s: string): string
    decreases |s|
  {
    if s == [] then []
    else if IsDigit(s[0]) then
      var k := DigitsFrom(s, 0);
      [' '] + s[..k] + [' '] + SpaceDigits(s[k..])
    else [s[0]] + SpaceDigits(s[1..])
  }

  /** `formatSpeech` of the peripheral page (255-260) and of the gaze results page (85-89). */
  function FormatSpeech(text: string): string
  {
    RewritePause(SpaceDigits(RewritePause(text, PauseMarks, ", ")), {','}, " ")
  }

  /** `formatSpeech` of the acuity page, whose first and third rules put back what they match. */
  function FormatSpeechAcuity(text: string): string
  {
    RewritePause(SpaceDigits(RewritePause(text, PauseMarks, " ")), {','}, " ")
  }

  /** `s` with every occurrence of `c` removed. */
  function Drop(s: string, c: char): (r: string)
    ensures |r| <= |s|
  {
    if s == [] then [] else (if s[0] == c then [] else [s[0]]) + Drop(s[1..], c)
  }

  /** No mark of `marks` is directly followed by a space. */
  predicate NoBarePause(r: string, marks: set<char>)
  {
    forall i :: 0 <= i < |r| - 1 && r[i] in marks ==> r[i + 1] != ' '
  }

  /** Every digit has a digit or a space on each side (so never sits at either end). */
  predicate DigitsFlanked(r: string)
  {
    forall i :: 0 <= i < |r| && IsDigit(r[i]) ==>
      0 < i < |r| - 1
      && (IsDigit(r[i - 1]) || r[i - 1] == ' ')
      && (IsDigit(r[i + 1]) || r[i + 1] == ' ')
  }

  lemma {:induction false} DropAppend(a: string, b: string, c: char)
    ensures Drop(a + b, c) == Drop(a, c) + Drop(b, c)
  {
    if a == [] {
      assert a + b == b;
    } else {
      assert (a + b)[0] == a[0] && (a + b)[1..] == a[1..] + b;
      DropAppend(a[1..], b, c);
    }
  }

  lemma {:induction false} DropCommute(s: string, c: char, d: char)
    ensures Drop(Drop(s, c), d) == Drop(Drop(s, d), c)
  {
    if s != [] {
      DropCommute(s[1..], c, d);
      var h := if s[0] == c then [] else [s[0]];
      var g := if s[0] == d then [] else [s[0]];
      DropAppend(h, Drop(s[1..], c), d);
      DropAppend(g, Drop(s[1..], d), c);
    }
  }

  /** A rewrite whose tail is a single space puts back exactly what it matched. */
  lemma {:induction false} RewritePauseSpaceIsIdentity(s: string, marks: set<char>)
    ensures RewritePause(s, marks, " ") == s
    decreases |s|
  {
    if |s| >= 2 && s[0] in marks && s[1] == ' ' {
      RewritePauseSpaceIsIdentity(s[2..], marks);
      assert s == [s[0]] + " " + s[2..];
    } else if s != [] {
      RewritePauseSpaceIsIdentity(s[1..], marks);
      assert s == [s[0]] + s[1..];
    }
  }

  lemma {:induction false} RewritePauseFirst(s: string, marks: set<char>, tail: string)
    requires s != []
    ensures RewritePause(s, marks, tail) != [] && RewritePause(s, marks, tail)[0] == s[0]
  {
  }

  /** Dropping from a text that starts with `m` and a space, when `m` is not dropped. */
  lemma DropMarkSpace(m: char, t: string, c: char)
    requires m != c && c != ' '
    ensures Drop([m, ' '] + t, c) == [m, ' '] + Drop(t, c)
  {
    DropAppend([m, ' '], t, c);
    assert Drop([m, ' '], c) == [m, ' '] by {
      assert [m, ' '][1..] == [' '];
      assert Drop([' '], c) == [' '] by { assert [' '][1..] == []; }
    }
  }

  /** Dropping commas from a mark followed by ", " leaves the mark and the space. */
  lemma DropMarkPause(m: char, t: string)
    requires m != ','
    ensures Drop([m, ',', ' '] + t, ',') == [m, ' '] + Drop(t, ',')
  {
    DropAppend([m, ',', ' '], t, ',');
    assert Drop([m, ',', ' '], ',') == [m, ' '] by {
      assert [m, ',', ' '][1..] == [',', ' '];
      assert [',', ' '][1..] == [' '];
      assert Drop([' '], ',') == [' '] by { assert [' '][1..] == []; }
    }
  }

  /** Inserting ", " after a pause mark adds only commas: dropping them gives back the input. */
  lemma {:induction false} RewritePauseAddsOnlyCommas(s: string, marks: set<char>)
    requires ',' !in marks
    ensures Drop(RewritePause(s, marks, ", "), ',') == Drop(s, ',')
    decreases |s|
  {
    if |s| >= 2 && s[0] in marks && s[1] == ' ' {
      RewritePauseAddsOnlyCommas(s[2..], marks);
      var rest := RewritePause(s[2..], marks, ", ");
      assert RewritePause(s, marks, ", ") == [s[0], ',', ' '] + rest;
      DropMarkPause(s[0], rest);
      assert s == [s[0], ' '] + s[2..];
      DropMarkSpace(s[0], s[2..], ',');
    } else if s != [] {
      RewritePauseAddsOnlyCommas(s[1..], marks);
      var rest := RewritePause(s[1..], marks, ", ");
      assert RewritePause(s, marks, ", ") == [s[0]] + rest;
      DropAppend([s[0]], rest, ',');
    }
  }

  /** After the ", " rewrite no pause mark is followed directly by a space. */
  lemma {:induction false} RewritePauseLeavesNoBarePause(s: string, marks: set<char>)
    requires ',' !in marks && ' ' !in marks
    ensures NoBarePause(RewritePause(s, marks, ", "), marks)
    decreases |s|
  {
    var r := RewritePause(s, marks, ", ");
    if |s| >= 2 && s[0] in marks && s[1] == ' ' {
      RewritePauseLeavesNoBarePause(s[2..], marks);
      var rest := RewritePause(s[2..], marks, ", ");
      assert r == [s[0], ',', ' '] + rest;
      forall i | 0 <= i < |r| - 1 && r[i] in marks
        ensures r[i + 1] != ' '
      {
        if i >= 3 {
          assert r[i] == rest[i - 3] && r[i + 1] == rest[i - 2];
        }
      }
    } else if s != [] {
      RewritePauseLeavesNoBarePause(s[1..], marks);
      var rest := RewritePause(s[1..], marks, ", ");
      assert r == [s[0]] + rest;
      forall i | 0 <= i < |r| - 1 && r[i] in marks
        ensures r[i + 1] != ' '
      {
        if i == 0 {
          RewritePauseFirst(s[1..], marks, ", ");
        } else {
          assert r[i] == rest[i - 1] && r[i + 1] == rest[i];
        }
      }
    }
  }

  /** Spacing digit runs adds only spaces: dropping them gives back the input's non-spaces. */
  lemma {:induction false} SpaceDigitsAddsOnlySpaces(s: string)
    ensures Drop(SpaceDigits(s), ' ') == Drop(s, ' ')
    decreases |s|
  {
    if s != [] {
      if IsDigit(s[0]) {
        var k := DigitsFrom(s, 0);
        SpaceDigitsAddsOnlySpaces(s[k..]);
        DropAppend([' '] + s[..k] + [' '], SpaceDigits(s[k..]), ' ');
        DropAppend([' '] + s[..k], [' '], ' ');
        DropAppend([' '], s[..k], ' ');
        assert s == s[..k] + s[k..];
        DropAppend(s[..k], s[k..], ' ');
      } else {
        SpaceDigitsAddsOnlySpaces(s[1..]);
        DropAppend([s[0]], SpaceDigits(s[1..]), ' ');
        assert s == [s[0]] + s[1..];
        DropAppend([s[0]], s[1..], ' ');
      }
    }
  }

  /** After spacing, every digit run has a space (or another digit) on both sides. */
  lemma {:induction false} SpaceDigitsFlanksDigits(s: string)
    ensures DigitsFlanked(SpaceDigits(s))
    decreases |s|
  {
    var r := SpaceDigits(s);
    if s != [] {
      if IsDigit(s[0]) {
        var k := DigitsFrom(s, 0);
        DigitsFromDigits(s, 0);
        var rest := SpaceDigits(s[k..]);
        SpaceDigitsFlanksDigits(s[k..]);
        assert r == [' '] + s[..k] + [' '] + rest;
        forall i | 0 <= i < |r| && IsDigit(r[i])
          ensures 0 < i < |r| - 1
          ensures IsDigit(r[i - 1]) || r[i - 1] == ' '
          ensures IsDigit(r[i + 1]) || r[i + 1] == ' '
        {
          if i >= k + 2 {
            assert r[i] == rest[i - k - 2];
            assert r[i - 1] == rest[i - k - 3] && r[i + 1] == rest[i - k - 1];
          } else {
            assert 1 <= i <= k;
            assert r[i - 1] == ' ' || r[i - 1] == s[i - 2];
            assert r[i + 1] == ' ' || r[i + 1] == s[i];
          }
        }
      } else {
        var rest := SpaceDigits(s[1..]);
        SpaceDigitsFlanksDigits(s[1..]);
        assert r == [s[0]] + rest;
        forall i | 0 <= i < |r| && IsDigit(r[i])
          ensures 0 < i < |r| - 1
          ensures IsDigit(r[i - 1]) || r[i - 1] == ' '
          ensures IsDigit(r[i + 1]) || r[i + 1] == ' '
        {
          assert r[i] == rest[i - 1];
          assert r[i - 1] == rest[i - 2] && r[i + 1] == rest[i];
        }
      }
    }
  }

  /**
   * `formatSpeech` (peripheral page) changes nothing but whitespace and
   * commas, and leaves every number standing apart between spaces.
   */
  lemma FormatSpeechInsertsOnlyPauses(text: string)
    ensures Drop(Drop(FormatSpeech(text), ' '), ',') == Drop(Drop(text, ' '), ',')
    ensures DigitsFlanked(FormatSpeech(text))
  {
    var a := RewritePause(text, PauseMarks, ", ");
    var b := SpaceDigits(a);
    RewritePauseSpaceIsIdentity(b, {','});
    assert FormatSpeech(text) == b;
    SpaceDigitsAddsOnlySpaces(a);
    SpaceDigitsFlanksDigits(a);
    RewritePauseAddsOnlyCommas(text, PauseMarks);
    DropCommute(a, ',', ' ');
    DropCommute(text, ',', ' ');
  }

  /**
   * `formatSpeech` (gaze results page): the first rule alone leaves no
   * sentence mark directly before a space, and the whole rewrite is the
   * digit spacing of that result.
   */
  lemma FormatSpeechPausesSentences(text: string)
    ensures NoBarePause(RewritePause(text, PauseMarks, ", "), PauseMarks)
    ensures FormatSpeech(text) == SpaceDigits(RewritePause(text, PauseMarks, ", "))
  {
    RewritePauseLeavesNoBarePause(text, PauseMarks);
    RewritePauseSpaceIsIdentity(SpaceDigits(RewritePause(text, PauseMarks, ", ")), {','});
  }

  /** On the acuity page only the digit spacing has an effect. */
  lemma FormatSpeechAcuityOnlySpacesDigits(text: string)
    ensures FormatSpeechAcuity(text) == SpaceDigits(text)
  {
    RewritePauseSpaceIsIdentity(text, PauseMarks);
    RewritePauseSpaceIsIdentity(SpaceDigits(text), {','});
  }
}
