/**
 * The peripheral vision page: six trials, each showing one capital letter
 * far to the side of the screen, with two attempts per trial; a tally of
 * correct and total answers; and the score tiers read out at the end.
 */
module Peripheral {
  import opened JsCore
  import opened JsText

  /*
   * ----- Tables -----
   */

  const InitialSizes: seq<real> := [36.0, 24.0, 18.0, 14.0, 12.0]

  /** `getSizeForLevel`: the five listed sizes, then the last one shrunk by a quarter per further level. */
  function SizeForLevel(level: nat): (r: real)
    ensures r > 0.0
  {
    if level < |InitialSizes| then InitialSizes[level]
    else
      PowerPositive(0.75, level - |InitialSizes| + 1);
      InitialSizes[|InitialSizes| - 1] * Power(0.75, level - |InitialSizes| + 1)
  }

  lemma SizeForLevelStep(level: nat)
    ensures SizeForLevel(level + 1) < SizeForLevel(level)
  {
    if level >= |InitialSizes| {
      PowerBelowOneDecreasing(0.75, level - |InitialSizes| + 1);
    } else if level == |InitialSizes| - 1 {
      assert Power(0.75, 1) == 0.75;
    }
  }

  /** The sizes strictly decrease with the level. */
  lemma {:induction false} SizeForLevelDecreasing(i: nat, j: nat)
    requires i < j
    ensures SizeForLevel(j) < SizeForLevel(i)
    decreases j - i
  {
    SizeForLevelStep(i);
    if i + 1 < j {
      SizeForLevelDecreasing(i + 1, j);
    }
  }

  const TotalTrials: nat := 6
  const MaxAttemptsPerTrial: nat := 2

  /*
   * ----- Random choices -----
   */

  datatype Position = Position(x: real, y: real)

  lemma ScaleStrict(a: real, b: real, p: real)
    requires a < b && p > 0.0
    ensures a * p < b * p
  {
  }

  /**
   * `generateRandomPosition` for a window of `width` by `innerHeight`, with
   * the two random draws as parameters: the side, and `r` in [0, 1). The
   * letter sits 5% of the width from one edge, within 15% of the test area's
   * height around its centre line.
   */
  function RandomPosition(width: real, innerHeight: real, isRightSide: bool, r: real): (p: Position)
    requires 0.0 <= r < 1.0
    ensures p.x == (if isRightSide then 0.95 * width else 0.05 * width)
    ensures var h := innerHeight - 250.0; var centerY := h / 2.0 - 50.0;
      (h > 0.0 ==> centerY - 0.15 * h <= p.y < centerY + 0.15 * h)
  {
    var viewportHeight := innerHeight - 250.0;
    var centerX := width / 2.0;
    var centerY := viewportHeight / 2.0 - 50.0;
    var distance := width / 2.0 * 0.9;
    var x := if isRightSide then centerX + distance else centerX - distance;
    var spread := viewportHeight * 0.3;
    var y := centerY + (r - 0.5) * spread;
    if viewportHeight > 0.0 then
      ScaleStrict(r - 0.5, 0.5, spread);
      assert -0.5 * spread <= (r - 0.5) * spread;
      Position(x, y)
    else
      Position(x, y)
  }

  /*
   * ----- Answers and score -----
   */

  /** The substring check: the lowered, whitespace-free transcript contains the lowered letter. */
  predicate AnswerCorrect(transcript: string, letter: string)
  {
    Includes(NormalizeTranscript(transcript), Lower(letter))
  }

  /** For a capital letter, an answer is correct exactly when that letter, in either case, was heard anywhere. */
  lemma AnswerCorrectIffHeard(transcript: string, c: char)
    requires IsUpper(c)
    ensures AnswerCorrect(transcript, [c]) <==> Occurs(Lower(transcript), LowerChar(c))
  {
    assert Lower([c]) == [LowerChar(c)];
    IncludesChar(NormalizeTranscript(transcript), LowerChar(c));
    RemoveSpacesKeeps(Lower(transcript), LowerChar(c));
  }

  datatype Tally = Tally(correct: nat, total: nat)

  /** `Math.round(correct / total * 100)` once at least one answer was given. */
  function Score(t: Tally): (s: int)
    requires t.total > 0 && t.correct <= t.total
    ensures 0 <= s <= 100
  {
    var ratio := t.correct as real / t.total as real;
    assert 0.0 <= ratio <= 1.0;
    Round(ratio * 100.0)
  }

  /** `correct / total` as a JavaScript number: 0 / 0 is NaN. */
  function Ratio(t: Tally): Num
  {
    if t.total > 0 then Finite(t.correct as real / t.total as real)
    else if t.correct > 0 then PosInfinity
    else NaN
  }

  datatype Tier = Top | Middle | Bottom

  /** The tiers of the spoken summaries: `score >= 80`, `score >= 60`, otherwise. */
  function NumTier(score: Num): Tier
  {
    if NumAtLeast(score, 80.0) then Top else if NumAtLeast(score, 60.0) then Middle else Bottom
  }

  function ScoreTier(score: int): Tier
  {
    NumTier(Finite(score as real))
  }

  /** The tiers of the on-screen interpretation, on the unrounded ratio. */
  function RatioTier(t: Tally): Tier
  {
    if NumAtLeast(Ratio(t), 0.8) then Top else if NumAtLeast(Ratio(t), 0.6) then Middle else Bottom
  }

  /** A quotient by a positive divisor compared with a bound. */
  lemma QuotientAtLeast(a: real, t: real, b: real)
    requires t > 0.0
    ensures a / t >= b <==> a >= b * t
  {
    var q := a / t;
    assert q * t == a;
    if q >= b {
      assert q * t >= b * t;
    } else {
      assert q * t < b * t;
    }
  }

  /** `Math.round(x)` is at least `k` exactly when `x` is at least `k - 1/2`. */
  lemma RoundAtLeast(x: real, k: int)
    ensures Round(x) >= k <==> x >= k as real - 0.5
  {
  }

  /** With fewer than 40 answers, `100 c / t` never lies in [k - 1/2, k) for the thresholds 80 and 60. */
  lemma NoScoreJustBelow(c: nat, t: nat, k: nat)
    requires 0 < t < 40 && (k == 80 || k == 60)
    ensures 200 * c >= (2 * k - 1) * t ==> 100 * c >= k * t
  {
    if k == 80 && 100 * c < 80 * t {
      assert 5 * c <= 4 * t - 1;
      assert 200 * c <= 160 * t - 40;
    } else if k == 60 && 100 * c < 60 * t {
      assert 5 * c <= 3 * t - 1;
      assert 200 * c <= 120 * t - 40;
    }
  }

  /**
   * Rounding never moves a tally across a tier boundary: with fewer than 40
   * answers (a test has at most 12), the tier of the rounded score and the
   * tier of the ratio agree when both are taken from the same tally, as the
   * results view's "Read Results" button and its interpretation are.
   */
  lemma TiersAgree(t: Tally)
    requires 0 < t.total < 40 && t.correct <= t.total
    ensures ScoreTier(Score(t)) == RatioTier(t)
  {
    var c, n := t.correct as real, t.total as real;
    var ratio := c / n;
    assert ratio * 100.0 == (100.0 * c) / n;
    RoundAtLeast(ratio * 100.0, 80);
    RoundAtLeast(ratio * 100.0, 60);
    QuotientAtLeast(100.0 * c, n, 79.5);
    QuotientAtLeast(100.0 * c, n, 59.5);
    QuotientAtLeast(c, n, 0.8);
    QuotientAtLeast(c, n, 0.6);
    NoScoreJustBelow(t.correct, t.total, 80);
    NoScoreJustBelow(t.correct, t.total, 60);
  }

  /**
   * The closing remark is taken from the tally before the final answer and
   * the results view from the tally after it, so the two can disagree. Five
   * first-try hits and two misses on the sixth trial close with the top
   * tier (5 of 6 is 83%) under a screen showing 71% and the middle tier.
   * Four hits with one miss and a double miss before a final hit close with
   * the bottom tier (4 of 7 is 57%) under 5 of 8, the middle tier.
   */
  lemma ClosingCanDisagreeWithScreen()
    ensures ScoreTier(Score(Tally(5, 6))) == Top && RatioTier(Tally(5, 7)) == Middle
    ensures ScoreTier(Score(Tally(4, 7))) == Bottom && RatioTier(Tally(4 + 1, 8)) == Middle
  {
    var a := 5.0 / 6.0 * 100.0;
    assert 83.3 < a < 83.4;
    assert Score(Tally(5, 6)) == Round(a) == 83;
    var b := 4.0 / 7.0 * 100.0;
    assert 57.1 < b < 57.2;
    assert Score(Tally(4, 7)) == Round(b) == 57;
  }

  /** Hearing "a" answers the letter A; hearing "b" does not. */
  lemma HeardA()
    ensures AnswerCorrect("a", "A") && !AnswerCorrect("b", "A")
  {
    AnswerCorrectIffHeard("a", 'A');
    AnswerCorrectIffHeard("b", 'A');
    assert Lower("a") == "a" && Lower("b") == "b";
    assert "a"[0] == 'a';
  }

  /** The closing remark spoken after "All done!", by tier and by whether the last answer was right. */
  datatype Closing = Closing(tier: Tier, afterCorrect: bool)

  function ClosingMessage(c: Closing): string
  {
    match (c.tier, c.afterCorrect)
    case (Top, true) => "Excellent peripheral vision! You successfully identified letters in your side vision."
    case (Middle, true) => "Good effort! A quick check with an eye doctor might help improve your side vision."
    case (Bottom, true) => "Thanks for trying! Let's have an eye doctor take a closer look at your peripheral vision."
    case (Top, false) => "Good peripheral vision! You identified most letters successfully."
    case (Middle, false) => "Your peripheral vision might need some attention. Consider consulting an eye doctor."
    case (Bottom, false) => "It seems you had difficulty with side vision. We recommend consulting an eye doctor."
  }

  /*
   * ----- The page -----
   */

  datatype Step = Intro | Distance | Test | ResultsView

  /** An answer ends its trial when it is correct or is the trial's last allowed miss. */
  predicate ClosesTrial(correct: bool, failedAttempts: nat)
  {
    correct || failedAttempts + 1 >= MaxAttemptsPerTrial
  }

  class PeripheralTest {
    var step: Step
    var currentLetter: string
    var currentPosition: Option<Position>
    var currentLevel: nat
    var results: Tally
    var progress: real
    var lastTranscript: string
    var failedAttempts: nat
    /** The closing remark of the last finished test. */
    var closing: Option<Closing>
    /** `peripheralAccuracy` in `localStorage`. */
    var storedAccuracy: Option<string>

    ghost predicate Valid()
      reads this
    {
      && currentLevel < TotalTrials
      && failedAttempts <= MaxAttemptsPerTrial
      && results.correct <= results.total <= MaxAttemptsPerTrial * TotalTrials
      && 0.0 <= progress <= 100.0
      && (step == Intro || step == Distance ==> results == Tally(0, 0))
      && (step == Test ==>
            && failedAttempts < MaxAttemptsPerTrial
            && |currentLetter| == 1 && IsUpper(currentLetter[0])
            && currentLevel + failedAttempts <= results.total <= 2 * currentLevel + failedAttempts)
    }

    /** Answers the running test can still take. */
    ghost function AnswerBudget(): int
      reads this
    {
      (TotalTrials - 1 - currentLevel) * MaxAttemptsPerTrial + (MaxAttemptsPerTrial - failedAttempts)
    }

    constructor (stored: Option<string>)
      ensures Valid()
      ensures step == Intro && currentLetter == "" && currentPosition == None && currentLevel == 0
      ensures results == Tally(0, 0) && progress == 0.0 && lastTranscript == "" && failedAttempts == 0
      ensures closing == None && storedAccuracy == stored
    {
      step := Intro;
      currentLetter := "";
      currentPosition := None;
      currentLevel := 0;
      results := Tally(0, 0);
      progress := 0.0;
      lastTranscript := "";
      failedAttempts := 0;
      closing := None;
      storedAccuracy := stored;
    }

    /** `startTest`: from the introduction to the distance guide. */
    method StartTest()
      requires Valid() && step == Intro
      modifies this`step
      ensures Valid() && step == Distance
    {
      step := Distance;
    }

    /** `startPeripheralTest`: a fresh tally and the first trial, showing `letter` at `position`. */
    method StartPeripheralTest(letter: char, position: Position)
      requires Valid() && IsUpper(letter)
      modifies this`results, this`step, this`currentLetter, this`currentPosition, this`currentLevel,
               this`progress, this`lastTranscript, this`failedAttempts
      ensures Valid() && AnswerBudget() == TotalTrials * MaxAttemptsPerTrial
      ensures results == Tally(0, 0) && step == Test && currentLetter == [letter] && currentPosition == Some(position)
      ensures currentLevel == 0 && progress == 0.0 && lastTranscript == "" && failedAttempts == 0
    {
      results := Tally(0, 0);
      step := Test;
      currentLetter := [letter];
      currentPosition := Some(position);
      currentLevel := 0;
      progress := 0.0;
      lastTranscript := "";
      failedAttempts := 0;
    }

    /** `restartTest`: back to the introduction; the failed-attempt counter is left as it was. */
    method RestartTest()
      requires Valid()
      modifies this`step, this`currentLetter, this`currentPosition, this`currentLevel, this`results,
               this`progress, this`lastTranscript
      ensures Valid()
      ensures step == Intro && currentLetter == "" && currentPosition == None && currentLevel == 0
      ensures results == Tally(0, 0) && progress == 0.0 && lastTranscript == ""
    {
      step := Intro;
      currentLetter := "";
      currentPosition := None;
      currentLevel := 0;
      results := Tally(0, 0);
      progress := 0.0;
      lastTranscript := "";
    }

    /**
     * The header's "View Results" button, shown on every step but the
     * introduction: it only switches to the results view, whatever the
     * tally. From the distance guide no answer has been given, so the view
     * shows NaN%.
     */
    method ViewResults()
      requires Valid() && step != Intro
      modifies this`step
      ensures Valid() && step == ResultsView && results == old(results)
      ensures old(step) == Distance ==> DisplayedScore() == NaN && RatioTier(results) == Bottom
    {
      step := ResultsView;
    }

    /** Moves to trial `nextLevel`, showing `letter` at `position`. */
    method NextTrial(nextLevel: nat, letter: char, position: Position)
      requires nextLevel < TotalTrials
      modifies this`currentLevel, this`currentLetter, this`currentPosition, this`progress
      ensures currentLevel == nextLevel && currentLetter == [letter] && currentPosition == Some(position)
      ensures progress == nextLevel as real / TotalTrials as real * 100.0 && 0.0 <= progress <= 100.0
    {
      currentLevel := nextLevel;
      currentLetter := [letter];
      currentPosition := Some(position);
      progress := nextLevel as real / TotalTrials as real * 100.0;
    }

    /**
     * `handleVoiceResult` for a `transcript` heard during a trial; `letter`
     * and `position` are the next random draws. The closing tier is taken
     * from the tally as it was before this answer was counted.
     */
    method HandleVoiceResult(transcript: string, letter: char, position: Position)
      requires Valid() && step == Test && IsUpper(letter)
      modifies this`step, this`currentLetter, this`currentPosition, this`currentLevel, this`results,
               this`progress, this`lastTranscript, this`failedAttempts, this`closing
      ensures Valid()
      ensures lastTranscript == transcript
      ensures results.total == old(results.total) + 1
      ensures results.correct == old(results.correct) + (if AnswerCorrect(transcript, old(currentLetter)) then 1 else 0)
      ensures step == Test ==> AnswerBudget() < old(AnswerBudget())
      // The last trial ends: the results view, with the closing tier of the tally seen before the answer.
      ensures ClosesTrial(AnswerCorrect(transcript, old(currentLetter)), old(failedAttempts))
              && old(currentLevel) + 1 >= TotalTrials ==>
        && step == ResultsView && old(results.total) > 0
        && closing == Some(Closing(ScoreTier(Score(old(results))), AnswerCorrect(transcript, old(currentLetter))))
        && currentLevel == old(currentLevel) && currentLetter == old(currentLetter)
        && currentPosition == old(currentPosition) && progress == old(progress)
        && failedAttempts == (if AnswerCorrect(transcript, old(currentLetter)) then 0 else old(failedAttempts) + 1)
      // Any other trial ends: the next trial, with a fresh attempt budget.
      ensures ClosesTrial(AnswerCorrect(transcript, old(currentLetter)), old(failedAttempts))
              && old(currentLevel) + 1 < TotalTrials ==>
        && step == Test && currentLevel == old(currentLevel) + 1 && failedAttempts == 0
        && currentLetter == [letter] && currentPosition == Some(position)
        && progress == (old(currentLevel) + 1) as real / TotalTrials as real * 100.0
        && closing == old(closing)
      // A first miss: the same trial again with a new letter and position.
      ensures !ClosesTrial(AnswerCorrect(transcript, old(currentLetter)), old(failedAttempts)) ==>
        && step == Test && currentLevel == old(currentLevel) && failedAttempts == old(failedAttempts) + 1
        && currentLetter == [letter] && currentPosition == Some(position)
        && progress == old(progress) && closing == old(closing)
    {
      lastTranscript := transcript;
      var isCorrect := AnswerCorrect(transcript, currentLetter);
      if isCorrect {
        CorrectAnswer(letter, position);
      } else {
        MissedAnswer(letter, position);
      }
    }

    /** The correct-answer branch: counted, then the next trial or, after the sixth, the end. */
    method CorrectAnswer(letter: char, position: Position)
      requires Valid() && step == Test && IsUpper(letter)
      modifies this`step, this`currentLetter, this`currentPosition, this`currentLevel, this`results,
               this`progress, this`failedAttempts, this`closing
      ensures Valid()
      ensures results == Tally(old(results.correct) + 1, old(results.total) + 1) && failedAttempts == 0
      ensures step == Test ==> AnswerBudget() < old(AnswerBudget())
      ensures old(currentLevel) + 1 >= TotalTrials ==>
        && step == ResultsView && old(results.total) > 0
        && closing == Some(Closing(ScoreTier(Score(old(results))), true))
        && currentLevel == old(currentLevel) && currentLetter == old(currentLetter)
        && currentPosition == old(currentPosition) && progress == old(progress)
      ensures old(currentLevel) + 1 < TotalTrials ==>
        && step == Test && currentLevel == old(currentLevel) + 1
        && currentLetter == [letter] && currentPosition == Some(position)
        && progress == (old(currentLevel) + 1) as real / TotalTrials as real * 100.0
        && closing == old(closing)
    {
      var seen := results;
      results := Tally(results.correct + 1, results.total + 1);
      failedAttempts := 0;
      var nextLevel := currentLevel + 1;
      if nextLevel >= TotalTrials {
        step := ResultsView;
        closing := Some(Closing(ScoreTier(Score(seen)), true));
        return;
      }
      NextTrial(nextLevel, letter, position);
    }

    /** The wrong-answer branch: counted, then a retry, the next trial or, after the sixth, the end. */
    method MissedAnswer(letter: char, position: Position)
      requires Valid() && step == Test && IsUpper(letter)
      modifies this`step, this`currentLetter, this`currentPosition, this`currentLevel, this`results,
               this`progress, this`failedAttempts, this`closing
      ensures Valid()
      ensures results == Tally(old(results.correct), old(results.total) + 1)
      ensures step == Test ==> AnswerBudget() < old(AnswerBudget())
      ensures old(failedAttempts) + 1 >= MaxAttemptsPerTrial && old(currentLevel) + 1 >= TotalTrials ==>
        && step == ResultsView && old(results.total) > 0
        && closing == Some(Closing(ScoreTier(Score(old(results))), false))
        && currentLevel == old(currentLevel) && currentLetter == old(currentLetter)
        && currentPosition == old(currentPosition) && progress == old(progress)
        && failedAttempts == old(failedAttempts) + 1
      ensures old(failedAttempts) + 1 >= MaxAttemptsPerTrial && old(currentLevel) + 1 < TotalTrials ==>
        && step == Test && currentLevel == old(currentLevel) + 1 && failedAttempts == 0
        && currentLetter == [letter] && currentPosition == Some(position)
        && progress == (old(currentLevel) + 1) as real / TotalTrials as real * 100.0
        && closing == old(closing)
      ensures old(failedAttempts) + 1 < MaxAttemptsPerTrial ==>
        && step == Test && currentLevel == old(currentLevel) && failedAttempts == old(failedAttempts) + 1
        && currentLetter == [letter] && currentPosition == Some(position)
        && progress == old(progress) && closing == old(closing)
    {
      var seen := results;
      results := Tally(results.correct, results.total + 1);
      var newFailedAttempts := failedAttempts + 1;
      failedAttempts := newFailedAttempts;
      if newFailedAttempts >= MaxAttemptsPerTrial {
        var nextLevel := currentLevel + 1;
        if nextLevel >= TotalTrials {
          step := ResultsView;
          closing := Some(Closing(ScoreTier(Score(seen)), false));
        } else {
          NextTrial(nextLevel, letter, position);
          failedAttempts := 0;
        }
      } else {
        currentLetter := [letter];
        currentPosition := Some(position);
      }
    }

    /**
     * The percentage the results view shows, `Math.round(correct / total *
     * 100)` with no guard: NaN when no answer was given. Its tier, as the
     * "Read Results" button speaks it, is always the interpretation's.
     */
    function DisplayedScore(): (s: Num)
      reads this
      requires Valid() && step == ResultsView
      ensures results.total == 0 <==> s == NaN
      ensures results.total > 0 ==> s == Finite(Score(results) as real)
      ensures NumTier(s) == RatioTier(results)
    {
      if results.total > 0 then
        TiersAgree(results);
        Finite(Score(results) as real)
      else
        NaN
    }

    /** The "detailed results" link: stores the displayed percentage followed by "%". */
    method StoreScore()
      requires Valid() && step == ResultsView
      modifies this`storedAccuracy
      ensures results.total == 0 ==> storedAccuracy == Some("NaN%")
      ensures results.total > 0 ==> storedAccuracy == Some(NatToText(Score(results)) + "%")
    {
      if results.total > 0 {
        var score := Score(results);
        storedAccuracy := Some(NatToText(score) + "%");
      } else {
        storedAccuracy := Some("NaN%");
      }
    }
  }

  /**
   * A whole test in which every trial shows A at `position`: five
   * first-try hits, then two misses on the sixth trial. The closing remark
   * is the top tier's, while the interpretation on screen is the middle one.
   */
  method FiveHitsThenDoubleMiss(position: Position) returns (spoken: Tier, shown: Tier)
    ensures spoken == Top && shown == Middle
  {
    var page := new PeripheralTest(None);
    page.StartTest();
    page.StartPeripheralTest('A', position);
    HeardA();
    page.HandleVoiceResult("a", 'A', position);
    page.HandleVoiceResult("a", 'A', position);
    page.HandleVoiceResult("a", 'A', position);
    page.HandleVoiceResult("a", 'A', position);
    page.HandleVoiceResult("a", 'A', position);
    assert page.results == Tally(5, 5) && page.currentLevel == 5;
    page.HandleVoiceResult("b", 'A', position);
    page.HandleVoiceResult("b", 'A', position);
    ClosingCanDisagreeWithScreen();
    spoken := page.closing.value.tier;
    shown := RatioTier(page.results);
  }
}
