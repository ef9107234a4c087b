/**
 * The gaze-tracking results page: the two figures it shows (stored values or
 * their defaults), the recommendation tier chosen from them, and the text it
 * reads aloud.
 */
module GazeResults {
  import opened JsCore
  import opened JsText
  import opened JsParse
  import opened Speech

  const DefaultAccuracy: string := "95%"
  const DefaultReactionTime: string := "0.5s"

  /** A stored value replaces the default only when it is present and not empty (a truthy string). */
  function Loaded(stored: Option<string>, default: string): (r: string)
    ensures stored.Some? && stored.value != "" ==> r == stored.value
    ensures stored == None || stored.value == "" ==> r == default
  {
    match stored
    case Some(v) => if v != "" then v else default
    case None => default
  }

  /** What the page shows: `gazeAccuracy` and `reactionTime` after the storage read. */
  datatype Shown = Shown(accuracy: string, reactionTime: string)

  function Load(storedAccuracy: Option<string>, storedReactionTime: Option<string>): (s: Shown)
    ensures s.accuracy == Loaded(storedAccuracy, DefaultAccuracy)
    ensures s.reactionTime == Loaded(storedReactionTime, DefaultReactionTime)
    ensures s.accuracy != "" && s.reactionTime != ""
  {
    Shown(Loaded(storedAccuracy, DefaultAccuracy), Loaded(storedReactionTime, DefaultReactionTime))
  }

  /** Loading again from what is shown changes nothing. */
  lemma LoadShownIsFixed(storedAccuracy: Option<string>, storedReactionTime: Option<string>)
    ensures var s := Load(storedAccuracy, storedReactionTime);
      Load(Some(s.accuracy), Some(s.reactionTime)) == s
  {
    var s := Load(storedAccuracy, storedReactionTime);
    assert s.accuracy != "" && s.reactionTime != "";
  }

  datatype Recommendation = Excellent | Good | Practice

  function Rank(r: Recommendation): nat
  {
    match r
    case Practice => 0
    case Good => 1
    case Excellent => 2
  }

  /** The tier for a parsed accuracy (NaN is `None`) and a parsed reaction time. */
  function ClassifyValues(accuracy: Option<int>, reactionTime: Num): Recommendation
  {
    if IntAtLeast(accuracy, 90) && NumAtMost(reactionTime, 0.6) then Excellent
    else if IntAtLeast(accuracy, 70) && NumAtMost(reactionTime, 1.0) then Good
    else Practice
  }

  /** The tier `speakResults` picks for the shown strings. */
  function Classify(accuracy: string, reactionTime: string): Recommendation
  {
    ClassifyValues(ParseInt(accuracy), ParseFloat(reactionTime))
  }

  /** A slower reaction never reads as faster. */
  ghost predicate NoFaster(slow: Num, fast: Num)
  {
    forall bound: real :: NumAtMost(slow, bound) ==> NumAtMost(fast, bound)
  }

  /** Better accuracy and a faster reaction never earn a lower tier. */
  lemma ClassifyMonotone(a1: Option<int>, r1: Num, a2: Option<int>, r2: Num)
    requires a1.Some? ==> a2.Some? && a1.value <= a2.value
    requires NoFaster(r1, r2)
    ensures Rank(ClassifyValues(a1, r1)) <= Rank(ClassifyValues(a2, r2))
  {
    assert NumAtMost(r1, 0.6) ==> NumAtMost(r2, 0.6);
    assert NumAtMost(r1, 1.0) ==> NumAtMost(r2, 1.0);
  }

  /** An accuracy with no leading integer always gets the practice tier. */
  lemma UnparseableAccuracyPractices(accuracy: string, reactionTime: string)
    requires ParseInt(accuracy) == None
    ensures Classify(accuracy, reactionTime) == Practice
  {
  }

  /** The figures as a test would print them, "n%" and "w.fs", are classified by their numeric values. */
  lemma ClassifyPrintedFigures(n: nat, w: nat, f: string)
    requires forall i :: 0 <= i < |f| ==> IsDigit(f[i])
    ensures Classify(NatToText(n) + "%", NatToText(w) + "." + f + "s")
         == ClassifyValues(Some(n), Finite(w as real + Fraction(f, 0, |f|)))
  {
    ParseIntReadsNatText(n, "%");
    ParseFloatReadsDecimalText(w, f, "s");
  }

  lemma DefaultAccuracyReads()
    ensures ParseInt(DefaultAccuracy) == Some(95)
  {
    assert NatToText(95) == "95" by {
      assert NatToText(9) == [DigitChar(9)];
    }
    assert DefaultAccuracy == NatToText(95) + "%";
    ParseIntReadsNatText(95, "%");
  }

  lemma FractionOfFive()
    ensures Fraction("5", 0, 1) == 0.5
  {
    assert DigitValue("5"[0]) == 5;
  }

  lemma DefaultReactionTimeText()
    ensures DefaultReactionTime == NatToText(0) + "." + "5" + "s"
  {
    assert NatToText(0) == "0";
  }

  lemma DefaultReactionTimeReads()
    ensures ParseFloat(DefaultReactionTime) == Finite(0.5)
  {
    DefaultReactionTimeText();
    ParseFloatReadsDecimalText(0, "5", "s");
    FractionOfFive();
  }

  /** The defaults, 95% and 0.5 seconds, get the top tier. */
  lemma DefaultsAreExcellent()
    ensures Classify(DefaultAccuracy, DefaultReactionTime) == Excellent
  {
    DefaultAccuracyReads();
    DefaultReactionTimeReads();
  }

  const ExcellentSentence: string :=
    "Your eye tracking capabilities are excellent! Your gaze control and reaction time are well above average."
  const GoodSentence: string :=
    "Your eye tracking performance is good, but there's room for improvement. Regular practice can help enhance your gaze control."
  const PracticeSentence: string :=
    "Consider practicing more with eye-tracking exercises to improve your gaze control and reaction time."
  const PracticeCoda: string := " Regular practice will help enhance your performance."

  /** The recommendation sentence `speakResults` reads. */
  function SpokenRecommendation(accuracy: string, reactionTime: string): string
  {
    var accuracyNum := ParseInt(accuracy);
    var reactionNum := ParseFloat(reactionTime);
    if IntAtLeast(accuracyNum, 90) && NumAtMost(reactionNum, 0.6) then ExcellentSentence
    else if IntAtLeast(accuracyNum, 70) && NumAtMost(reactionNum, 1.0) then GoodSentence
    else PracticeSentence
  }

  /** The interpretation paragraph on screen, with its own copy of the thresholds. */
  function Interpretation(accuracy: string, reactionTime: string): string
  {
    if IntAtLeast(ParseInt(accuracy), 90) && NumAtMost(ParseFloat(reactionTime), 0.6) then ExcellentSentence
    else if IntAtLeast(ParseInt(accuracy), 70) && NumAtMost(ParseFloat(reactionTime), 1.0) then GoodSentence
    else PracticeSentence + PracticeCoda
  }

  /**
   * The screen and the voice agree: the same tier, the same sentence, except
   * that the practice paragraph on screen carries one more sentence.
   */
  lemma InterpretationAgreesWithSpoken(accuracy: string, reactionTime: string)
    ensures Interpretation(accuracy, reactionTime)
         == SpokenRecommendation(accuracy, reactionTime)
            + (if Classify(accuracy, reactionTime) == Practice then PracticeCoda else "")
  {
    var spoken := SpokenRecommendation(accuracy, reactionTime);
    if Classify(accuracy, reactionTime) != Practice {
      assert spoken + "" == spoken;
    }
  }

  /** The summary before the pause rewriting. */
  function ResultsMessage(s: Shown): string
  {
    "Your gaze tracking accuracy is " + s.accuracy + ", "
      + "and your average reaction time is " + s.reactionTime + ". "
      + SpokenRecommendation(s.accuracy, s.reactionTime)
  }

  /** `speakResults`: the summary as read aloud; apart from pauses it is word for word the summary. */
  function SpeakResults(s: Shown): (spoken: string)
    ensures Drop(Drop(spoken, ' '), ',') == Drop(Drop(ResultsMessage(s), ' '), ',')
    ensures DigitsFlanked(spoken)
  {
    FormatSpeechInsertsOnlyPauses(ResultsMessage(s));
    FormatSpeech(ResultsMessage(s))
  }
}
