/**
 * The Snellen acuity page: the level tables and the answer machine that
 * walks a reader from 20/200 letters down to 20/20 letters, with three
 * wrong answers allowed per level.
 */
module Snellen {
  import opened JsCore
  import opened JsText

  /*
   * ----- Level tables -----
   */

  datatype SnellenLevel = SnellenLevel(ratio: string, multiplier: real, fontSizePt: real, fontSizePx: real)

  /** The eleven levels, from the largest letters (worst vision) to the smallest. */
  const SnellenLevels: seq<SnellenLevel> := [
    SnellenLevel("20/200", 10.0, 40.0, 53.3),
    SnellenLevel("20/160", 8.0, 32.0, 42.7),
    SnellenLevel("20/125", 6.25, 25.0, 33.3),
    SnellenLevel("20/100", 5.0, 20.0, 26.6),
    SnellenLevel("20/80", 4.0, 16.0, 21.3),
    SnellenLevel("20/63", 3.15, 12.6, 16.8),
    SnellenLevel("20/50", 2.5, 10.0, 13.3),
    SnellenLevel("20/40", 2.0, 8.0, 10.7),
    SnellenLevel("20/32", 1.6, 6.4, 8.5),
    SnellenLevel("20/25", 1.25, 5.0, 6.7),
    SnellenLevel("20/20", 1.0, 4.0, 5.0)
  ]

  const LastLevel: nat := |SnellenLevels| - 1

  /** Every level prints smaller letters than the one before it. */
  lemma SnellenLevelsShrink(i: nat, j: nat)
    requires i < j < |SnellenLevels|
    ensures SnellenLevels[j].fontSizePx < SnellenLevels[i].fontSizePx
    ensures SnellenLevels[j].multiplier < SnellenLevels[i].multiplier
  {
  }

  const InitialSizes: seq<real> := [48.0, 24.0, 12.0]

  /**
   * `getSizeForLevel`: 48, 24, 12 pixels, then the last size halved once per
   * further level. The page defines it but never calls it: the letters are
   * sized from the level table.
   */
  function SizeForLevel(level: nat): (r: real)
    ensures r > 0.0
  {
    if level < |InitialSizes| then InitialSizes[level]
    else
      PowerPositive(2.0, level - |InitialSizes| + 1);
      InitialSizes[|InitialSizes| - 1] / Power(2.0, level - |InitialSizes| + 1)
  }

  /** Each level's letters are half the size of the previous level's. */
  lemma SizeForLevelHalves(level: nat)
    ensures SizeForLevel(level + 1) == SizeForLevel(level) / 2.0
  {
    if level >= |InitialSizes| {
      var n := level - |InitialSizes| + 1;
      PowerPositive(2.0, n);
      assert Power(2.0, n + 1) == 2.0 * Power(2.0, n);
    } else if level == |InitialSizes| - 1 {
      assert Power(2.0, 1) == 2.0;
    }
  }

  /** The sizes strictly decrease with the level. */
  lemma {:induction false} SizeForLevelDecreasing(i: nat, j: nat)
    requires i < j
    ensures SizeForLevel(j) < SizeForLevel(i)
    decreases j - i
  {
    SizeForLevelHalves(i);
    if i + 1 < j {
      SizeForLevelDecreasing(i + 1, j);
    }
  }

  /** The ratios `calculateSnellenRatio` can report, from worst to best. */
  const RatioScale: seq<string> := ["20/200", "20/70", "20/30", "20/25", "20/20", "20/15", "20/10"]

  /** `calculateSnellenRatio`: the ratio reported when the letters of level `sizeIndex` were the smallest read. */
  function SnellenRatio(sizeIndex: int): string
  {
    if sizeIndex < |InitialSizes| then
      if sizeIndex == 0 then "20/200"
      else if sizeIndex == 1 then "20/70"
      else if sizeIndex == 2 then "20/30"
      else "20/200"
    else
      var extraLevels := sizeIndex - |InitialSizes| + 1;
      if extraLevels <= 2 then "20/25"
      else if extraLevels <= 4 then "20/20"
      else if extraLevels <= 6 then "20/15"
      else "20/10"
  }

  /** Position of a ratio on the scale; ratios not on it rank below all. */
  function RatioRank(r: string): (k: int)
    ensures -1 <= k < |RatioScale|
    ensures k >= 0 ==> RatioScale[k] == r
  {
    if r == RatioScale[0] then 0
    else if r == RatioScale[1] then 1
    else if r == RatioScale[2] then 2
    else if r == RatioScale[3] then 3
    else if r == RatioScale[4] then 4
    else if r == RatioScale[5] then 5
    else if r == RatioScale[6] then 6
    else -1
  }

  /**
   * Every reported ratio is on the scale, and reading smaller letters never
   * reports a worse ratio (negative indices fall back to 20/200).
   */
  lemma SnellenRatioMonotone(i: int, j: int)
    requires i <= j
    ensures RatioRank(SnellenRatio(i)) >= 0
    ensures RatioRank(SnellenRatio(i)) <= RatioRank(SnellenRatio(j))
  {
  }

  /** The verdicts of `getVisionQuality`, from worst to best. */
  datatype Quality = NeedsAttention | BelowAverage | Good | Excellent | Exceptional

  function QualityRank(q: Quality): nat
  {
    match q
    case NeedsAttention => 0
    case BelowAverage => 1
    case Good => 2
    case Excellent => 3
    case Exceptional => 4
  }

  function QualityText(q: Quality): string
  {
    match q
    case NeedsAttention => "Needs Attention"
    case BelowAverage => "Below Average"
    case Good => "Good"
    case Excellent => "Excellent"
    case Exceptional => "Exceptional"
  }

  /** `getVisionQuality`. */
  function VisionQuality(sizeIndex: int): Quality
  {
    var extraLevels := if sizeIndex - |InitialSizes| + 1 > 0 then sizeIndex - |InitialSizes| + 1 else 0;
    if extraLevels >= 6 then Exceptional
    else if extraLevels >= 4 then Excellent
    else if extraLevels >= 2 || sizeIndex >= 2 then Good
    else if sizeIndex >= 1 then BelowAverage
    else NeedsAttention
  }

  /** The verdict never gets worse as the index grows, and its five texts are distinct. */
  lemma VisionQualityMonotone(i: int, j: int)
    requires i <= j
    ensures QualityRank(VisionQuality(i)) <= QualityRank(VisionQuality(j))
    ensures VisionQuality(i) != VisionQuality(j) ==> QualityText(VisionQuality(i)) != QualityText(VisionQuality(j))
  {
  }

  /*
   * ----- Answers -----
   */

  const LetterCount: nat := 5
  const MaxWrongAttempts: nat := 3

  /** What `generateRandomString(5)` can return: five lower-case letters. */
  predicate IsLetterString(s: string)
  {
    |s| == LetterCount && forall i :: 0 <= i < |s| ==> IsLower(s[i])
  }

  /** The exact-match check: the lowered transcript without whitespace equals the lowered target. */
  predicate AnswerCorrect(transcript: string, target: string)
  {
    NormalizeTranscript(transcript) == Lower(target)
  }

  /** A transcript that spells the letters out, one word per letter. */
  function SpellOut(s: string): (r: string)
    ensures |r| == 2 * |s|
  {
    if s == [] then [] else [s[0], ' '] + SpellOut(s[1..])
  }

  lemma {:induction false} LowerAppend(a: string, b: string)
    ensures Lower(a + b) == Lower(a) + Lower(b)
  {
    assert forall i :: 0 <= i < |a + b| ==> Lower(a + b)[i] == (Lower(a) + Lower(b))[i];
  }

  lemma {:induction false} RemoveSpacesAppend(a: string, b: string)
    ensures RemoveSpaces(a + b) == RemoveSpaces(a) + RemoveSpaces(b)
  {
    if a != [] {
      assert (a + b)[0] == a[0] && (a + b)[1..] == a[1..] + b;
      RemoveSpacesAppend(a[1..], b);
    } else {
      assert a + b == b;
    }
  }

  /** Spelled out one letter per word, a text of letters that stay letters when lowered reads back as its lowered self. */
  lemma {:induction false} SpellOutNormalizes(said: string)
    requires forall i :: 0 <= i < |said| ==> !IsSpace(LowerChar(said[i]))
    ensures NormalizeTranscript(SpellOut(said)) == Lower(said)
  {
    if said != [] {
      var rest := said[1..];
      SpellOutNormalizes(rest);
      var c := LowerChar(said[0]);
      assert SpellOut(said) == [said[0], ' '] + SpellOut(rest);
      LowerAppend([said[0], ' '], SpellOut(rest));
      assert Lower([said[0], ' ']) == [c, ' '];
      RemoveSpacesAppend([c, ' '], Lower(SpellOut(rest)));
      assert RemoveSpaces([c, ' ']) == [c];
      LowerAppend([said[0]], rest);
      assert said == [said[0]] + rest;
    }
  }

  /**
   * Spelling the target out one letter per word is accepted, whatever the
   * case each letter is said in.
   */
  lemma SpelledTargetAccepted(target: string, said: string)
    requires forall i :: 0 <= i < |target| ==> !IsSpace(target[i])
    requires Lower(said) == Lower(target)
    ensures AnswerCorrect(SpellOut(said), target)
  {
    forall i | 0 <= i < |said|
      ensures !IsSpace(LowerChar(said[i]))
    {
      assert LowerChar(said[i]) == Lower(target)[i] == LowerChar(target[i]);
    }
    SpellOutNormalizes(said);
  }

  /** A transcript with a different number of letters than the target is rejected. */
  lemma AnswerNeedsSameLength(transcript: string, target: string)
    requires |RemoveSpaces(transcript)| != |target|
    ensures !AnswerCorrect(transcript, target)
  {
    LowerRemoveSpacesCommute(transcript);
  }

  /*
   * ----- Stored score -----
   */

  datatype Results = Results(prescription: string, lastCorrectIndex: nat)

  const InitialResults: Results := Results(SnellenLevels[0].ratio, 0)

  /** `snellenScore` and `snellenAccuracy` in `localStorage`. */
  datatype Storage = Storage(snellenScore: Option<string>, snellenAccuracy: Option<string>)

  /** `Math.round((lastCorrectIndex + 1) / 11 * 100)`; no quotient here lies near a half, so floating error cannot change it. */
  function StoredAccuracy(lastCorrectIndex: nat): int
  {
    Round((lastCorrectIndex + 1) as real / |SnellenLevels| as real * 100.0)
  }

  /** The stored percentage lies between 9 and 100 and grows with the level. */
  lemma StoredAccuracyRange(i: nat, j: nat)
    requires i <= j <= LastLevel
    ensures 9 <= StoredAccuracy(i) <= StoredAccuracy(j) <= 100
  {
    RoundMonotone((i + 1) as real / 11.0 * 100.0, (j + 1) as real / 11.0 * 100.0);
  }

  /** What the page stores when the test ends with `results` as the handler saw them. */
  function Stored(results: Results): (s: Storage)
    requires results.lastCorrectIndex <= LastLevel
    ensures s.snellenScore == Some(results.prescription)
  {
    StoredAccuracyRange(results.lastCorrectIndex, results.lastCorrectIndex);
    Storage(Some(results.prescription), Some(NatToText(StoredAccuracy(results.lastCorrectIndex)) + "%"))
  }

  /**
   * A reader who answers every level correctly ends at 20/20, but the
   * handler stores the results it saw before its own update: those of the
   * previous level, 20/25 and 91%.
   */
  lemma PerfectRunStoresPreviousLevel()
    ensures Stored(Results(SnellenLevels[LastLevel - 1].ratio, LastLevel - 1))
         == Storage(Some("20/25"), Some("91%"))
  {
    var x := 10.0 / 11.0 * 100.0;
    assert 90.9 < x < 91.0;
    assert StoredAccuracy(9) == Round(x) == 91;
    assert NatToText(9) == ['9'] && DigitChar(1) == '1';
    assert NatToText(91) == NatToText(9) + [DigitChar(1)] == "91";
    assert SnellenLevels[9].ratio == "20/25" && LastLevel - 1 == 9;
    assert "91" + "%" == "91%";
  }

  /*
   * ----- The page -----
   */

  datatype Step = Intro | Distance | Test | ResultsView

  class AcuityTest {
    var step: Step
    var currentString: string
    var currentLevelIndex: nat
    var results: Results
    var progress: real
    var lastTranscript: string
    var wrongAttempts: nat
    var storage: Storage

    ghost predicate Valid()
      reads this
    {
      && currentLevelIndex <= LastLevel
      && results.lastCorrectIndex <= currentLevelIndex
      && results.prescription == SnellenLevels[results.lastCorrectIndex].ratio
      && (step == Test ==> wrongAttempts < MaxWrongAttempts && IsLetterString(currentString))
      && 0.0 <= progress <= 100.0
    }

    /** Answers the test can still take: three per remaining level, plus those left at this one. */
    ghost function AnswerBudget(): int
      reads this
    {
      (LastLevel - currentLevelIndex) * MaxWrongAttempts + (MaxWrongAttempts - wrongAttempts)
    }

    /** The page as first rendered; `stored` is whatever an earlier visit left in storage. */
    constructor (stored: Storage)
      ensures Valid()
      ensures step == Intro && currentString == "" && currentLevelIndex == 0 && results == InitialResults
      ensures progress == 0.0 && lastTranscript == "" && wrongAttempts == 0 && storage == stored
    {
      step := Intro;
      currentString := "";
      currentLevelIndex := 0;
      results := InitialResults;
      progress := 0.0;
      lastTranscript := "";
      wrongAttempts := 0;
      storage := stored;
    }

    /** "Attempts Remaining" while a level is shown. */
    function AttemptsRemaining(): (r: int)
      reads this
      requires Valid() && step == Test
      ensures 1 <= r <= MaxWrongAttempts
    {
      MaxWrongAttempts - wrongAttempts
    }

    /** `startTest`: from the introduction to the distance guide. */
    method StartTest()
      requires step == Intro
      modifies this`step
      ensures step == Distance
    {
      step := Distance;
    }

    /** `startLetterTest`: shows the five `letters` at the current level with fresh attempts. */
    method StartLetterTest(letters: string)
      requires Valid() && IsLetterString(letters)
      modifies this`step, this`currentString, this`progress, this`wrongAttempts, this`lastTranscript
      ensures Valid()
      ensures step == Test && currentString == letters && wrongAttempts == 0 && lastTranscript == ""
      ensures progress == currentLevelIndex as real / LastLevel as real * 100.0
    {
      step := Test;
      currentString := letters;
      progress := currentLevelIndex as real / LastLevel as real * 100.0;
      wrongAttempts := 0;
      lastTranscript := "";
    }

    /**
     * `handleVoiceResult` for a `transcript` heard during the test, with
     * `letters` the next random string. Every value the handler reads is
     * the one it saw when called, including `results` when it stores the
     * score and the level index when it restarts the letters.
     */
    method HandleVoiceResult(transcript: string, letters: string)
      requires Valid() && step == Test && IsLetterString(letters)
      modifies this`step, this`currentString, this`currentLevelIndex, this`results, this`progress,
               this`lastTranscript, this`wrongAttempts, this`storage
      ensures Valid()
      ensures old(currentLevelIndex) <= currentLevelIndex
      ensures step == Test ==> AnswerBudget() < old(AnswerBudget())
      ensures AnswerCorrect(transcript, old(currentString)) ==>
        && wrongAttempts == 0
        && results == Results(SnellenLevels[old(currentLevelIndex)].ratio, old(currentLevelIndex))
      ensures AnswerCorrect(transcript, old(currentString)) && old(currentLevelIndex) < LastLevel ==>
        && step == Test && currentLevelIndex == old(currentLevelIndex) + 1 && currentString == letters
        && progress == old(currentLevelIndex) as real / LastLevel as real * 100.0
        && lastTranscript == "" && storage == old(storage)
      ensures AnswerCorrect(transcript, old(currentString)) && old(currentLevelIndex) == LastLevel ==>
        && step == ResultsView && currentLevelIndex == LastLevel
        && storage == Stored(old(results)) && lastTranscript == Lower(transcript)
        && currentString == old(currentString) && progress == old(progress)
      ensures !AnswerCorrect(transcript, old(currentString)) ==>
        && wrongAttempts == old(wrongAttempts) + 1
        && currentLevelIndex == old(currentLevelIndex) && results == old(results)
        && lastTranscript == Lower(transcript) && progress == old(progress)
      ensures !AnswerCorrect(transcript, old(currentString)) && wrongAttempts >= MaxWrongAttempts ==>
        step == ResultsView && storage == Stored(old(results)) && currentString == old(currentString)
      ensures !AnswerCorrect(transcript, old(currentString)) && wrongAttempts < MaxWrongAttempts ==>
        step == Test && storage == old(storage) && currentString == letters
    {
      lastTranscript := Lower(transcript);
      var normalizedTranscript := RemoveSpaces(Lower(transcript));
      var normalizedCurrentString := Lower(currentString);
      if normalizedTranscript == normalizedCurrentString {
        CorrectAnswer(letters);
      } else {
        WrongAnswer(letters);
      }
    }

    /** The correct-answer branch: the level is recorded, then the next level starts or the test ends. */
    method CorrectAnswer(letters: string)
      requires Valid() && step == Test && IsLetterString(letters)
      modifies this`step, this`currentString, this`currentLevelIndex, this`results, this`progress,
               this`lastTranscript, this`wrongAttempts, this`storage
      ensures Valid()
      ensures step == Test ==> AnswerBudget() < old(AnswerBudget())
      ensures wrongAttempts == 0
      ensures results == Results(SnellenLevels[old(currentLevelIndex)].ratio, old(currentLevelIndex))
      ensures old(currentLevelIndex) < LastLevel ==>
        && step == Test && currentLevelIndex == old(currentLevelIndex) + 1 && currentString == letters
        && progress == old(currentLevelIndex) as real / LastLevel as real * 100.0
        && lastTranscript == "" && storage == old(storage)
      ensures old(currentLevelIndex) == LastLevel ==>
        && step == ResultsView && currentLevelIndex == LastLevel
        && storage == Stored(old(results)) && lastTranscript == old(lastTranscript)
        && currentString == old(currentString) && progress == old(progress)
    {
      var seenResults := results;
      var seenLevel := currentLevelIndex;
      wrongAttempts := 0;
      results := results.(lastCorrectIndex := seenLevel, prescription := SnellenLevels[seenLevel].ratio);
      if seenLevel < LastLevel {
        currentLevelIndex := seenLevel + 1;
        step := Test;
        currentString := letters;
        progress := seenLevel as real / LastLevel as real * 100.0;
        wrongAttempts := 0;
        lastTranscript := "";
      } else {
        step := ResultsView;
        storage := Stored(seenResults);
      }
    }

    /** The wrong-answer branch: one more wrong attempt, then new letters or, at the third, the end. */
    method WrongAnswer(letters: string)
      requires Valid() && step == Test && IsLetterString(letters)
      modifies this`step, this`currentString, this`wrongAttempts, this`storage
      ensures Valid()
      ensures step == Test ==> AnswerBudget() < old(AnswerBudget())
      ensures wrongAttempts == old(wrongAttempts) + 1
      ensures wrongAttempts >= MaxWrongAttempts ==>
        step == ResultsView && storage == Stored(results) && currentString == old(currentString)
      ensures wrongAttempts < MaxWrongAttempts ==>
        step == Test && storage == old(storage) && currentString == letters
    {
      var seenResults := results;
      wrongAttempts := wrongAttempts + 1;
      if wrongAttempts >= MaxWrongAttempts {
        step := ResultsView;
        storage := Stored(seenResults);
      } else {
        currentString := letters;
      }
    }

    /**
     * The "Quit Test" button under a running test: straight to the results
     * view, which shows the last level read; nothing is stored.
     */
    method QuitTest()
      requires Valid() && step == Test
      modifies this`step
      ensures Valid() && step == ResultsView
      ensures results == old(results) && storage == old(storage)
    {
      step := ResultsView;
    }

    /** `restartTest`: back to the introduction at the first level; storage is kept. */
    method RestartTest()
      modifies this`step, this`currentString, this`currentLevelIndex, this`results, this`progress,
               this`lastTranscript, this`wrongAttempts
      ensures Valid()
      ensures step == Intro && currentString == "" && currentLevelIndex == 0 && results == InitialResults
      ensures progress == 0.0 && lastTranscript == "" && wrongAttempts == 0
    {
      step := Intro;
      currentString := "";
      currentLevelIndex := 0;
      results := InitialResults;
      progress := 0.0;
      lastTranscript := "";
      wrongAttempts := 0;
    }
  }
}
