# 4Sight vision checks, modelled in Dafny

4Sight is a browser app with three self-administered vision checks and one
results page:

- a **Snellen acuity test** (`app/page.tsx`): the reader says five random
  letters aloud at each of eleven Snellen levels, from 20/200 down to 20/20,
  with three wrong answers allowed per level; the last level read is stored
  as `snellenScore` with a percentage `snellenAccuracy`;
- a **peripheral vision test** (`app/peripheral/page.tsx`): six trials, each
  showing one capital letter near the left or right edge while the reader
  fixes a centre dot, with two attempts per trial; a tally of correct and
  total answers gives the score and a spoken and written verdict;
- a **gaze tracker tester** (`public/gaze-tester/gazeTracker.js`): a script
  that smooths the gaze predictions of an eye-tracking engine, walks the
  user through click calibration, counts down, then moves a target around
  a circle for 15 seconds, records the gaze against it and scores the
  recording;
- the **gaze results page** (`app/gaze-tester/results/page.tsx`): shows an
  accuracy and a reaction time (stored values or defaults) and picks one of
  three recommendations from them.

The project models those four sources:

| file | models |
|---|---|
| `JsCore.dfy` | `Math.round`, `Math.ceil`, `Math.min`, clamping, powers, and JavaScript numbers that may be NaN or infinite |
| `JsText.dfy` | `\s`, `toLowerCase`, `replace(/\s+/g, '')`, `includes`, printing a number |
| `JsParse.dfy` | `parseInt` and `parseFloat` with a numeric prefix and trailing text |
| `Speech.dfy` | the `formatSpeech` rewrites of all three pages |
| `GazeModel.dfy` | the gaze filter, the circular path, the tracking clock, the accuracy score and the live readouts, as values |
| `GazeTracker.dfy` | the script's module-level state as a class, with one method per event (gaze prediction, animation frame, click, timer, resize) |
| `Snellen.dfy` | the acuity page: level tables, answer check, stored score, and the page state as a class |
| `Peripheral.dfy` | the peripheral page: sizes, positions, answer check, score tiers, and the page state as a class |
| `GazeResults.dfy` | the gaze results page: default and stored figures, the tier rule, the interpretation and the spoken summary |

The page and script state that handlers update in place are classes
(`GazeTracker.Tracker`, `Snellen.AcuityTest`, `Peripheral.PeripheralTest`).
Each has a `Valid()` invariant that every event keeps. Each event handler is
a method whose `ensures` gives, on every branch, the new value of each field
the method may change, in terms of the old state.
Randomness and the browser are parameters: the random letters, letter
strings and positions, timer and frame times, the window size, and the gaze
engine's predictions. `Math.sqrt`, `Math.pow(x, 1.5)`, `Math.cos` and
`Math.sin` are function values in a `GazeModel.MathLib`. The proofs rely
only on the facts `GazeModel.Sound` lists: the square root is non-negative,
the power is monotone with fixed points 0 and 1, and sine and cosine lie in
[-1, 1].

Behaviour the model keeps as written:

- A React handler reads the state as it was when the handler was called.
  The state updates it makes apply only after it returns.
- On the acuity page, a correct answer at the last level stores the results
  from before that answer. A perfect run therefore stores "20/25" and "91%"
  (`Snellen.PerfectRunStoresPreviousLevel`).
- After a correct answer, the acuity page restarts the letters with the
  progress bar computed from the old level index.
- On the peripheral page, the spoken verdict at the end uses the tally from
  before the final answer, while the results view uses the tally after it,
  so the two can disagree. Five first-try hits and two misses on the sixth
  trial speak the top tier (5 of 6, 83%) over a screen showing 71% and the
  middle tier (`Peripheral.ClosingCanDisagreeWithScreen`,
  `Peripheral.FiveHitsThenDoubleMiss`). Rounding alone never changes a tier:
  the "Read Results" button and the on-screen interpretation read the same
  tally and always agree (`Peripheral.TiersAgree`).
- The peripheral header's "View Results" button switches to the results
  view from any step but the introduction, with no guard. Pressed on the
  distance guide, before any answer, the view shows "NaN%" and the lowest
  interpretation, and the detailed-results link stores "NaN%".
- The acuity page's "Quit Test" button switches to the results view without
  storing anything.
- `restartTest` on the peripheral page leaves the failed-attempt counter as
  it was.
- The gaze script has two calibration mechanisms. The older per-dot click
  handler counts 5 clicks on each of 8 dots and skips the top-left dot. The
  nine-point sequencer counts 5 clicks per point. Either one can start a
  countdown, so several countdown chains can be pending at once.

## Model

| member | source | states |
|---|---|---|
| JsCore.Round | app/peripheral/page.tsx:350 | `Math.round(x)` lies in (x - 1/2, x + 1/2] |
| JsCore.RoundMonotone | public/gaze-tester/gazeTracker.js:191 | rounding preserves order |
| JsText.Lower | app/page.tsx:453 | each ASCII capital becomes its lower-case letter and every other character is kept as it is, so the length is kept (the rest of Unicode is under "Left out") |
| JsText.RemoveSpaces | app/page.tsx:453 | `replace(/\s+/g, '')` leaves no `\s` character and never lengthens the text |
| JsText.LowerRemoveSpacesCommute | app/page.tsx:453 | lowering and removing whitespace commute |
| JsText.IncludesChar | app/peripheral/page.tsx:332 | `includes` of a one-letter string holds exactly when that letter occurs somewhere |
| JsText.RemoveSpacesKeeps | app/peripheral/page.tsx:331 | a character occurs after whitespace removal exactly when it occurs before and is not whitespace |
| JsText.NatToText | app/page.tsx:479 | a printed number is a non-empty run of decimal digits |
| JsParse.SpacesFrom | app/gaze-tester/results/page.tsx:116 | the prefix both readers skip is whitespace throughout and is followed by the end of the text or a non-whitespace character |
| JsParse.DigitsValueOfNatToText | app/gaze-tester/results/page.tsx:116 | reading back the printed digits of n gives n |
| JsParse.ParseIntReadsNatText | app/gaze-tester/results/page.tsx:116 | `parseInt` of a printed number followed by non-digit text (such as "%") is that number |
| JsParse.ParseFloatReadsDecimalText | app/gaze-tester/results/page.tsx:117 | `parseFloat` of "w.f" followed by text starting with neither a digit nor an exponent (such as "s") is w plus the decimal fraction 0.f |
| Speech.FormatSpeechInsertsOnlyPauses | app/peripheral/page.tsx:255-260 | `formatSpeech` changes nothing but spaces and commas, and every digit run ends up set apart by spaces |
| Speech.FormatSpeechPausesSentences | app/gaze-tester/results/page.tsx:85-89 | after the first rewrite no '.', '!' or '?' is directly followed by a space, and the third rewrite changes nothing |
| Speech.FormatSpeechAcuityOnlySpacesDigits | app/page.tsx:306-311 | on the acuity page only the digit spacing has an effect |
| Speech.RewritePauseAddsOnlyCommas | app/peripheral/page.tsx:257 | the pause rewrite only inserts commas |
| Speech.SpaceDigitsAddsOnlySpaces | app/peripheral/page.tsx:258 | the digit rewrite only inserts spaces |
| GazeModel.FilterIgnoresUnusable | public/gaze-tester/gazeTracker.js:67-74 | a null prediction, or one with a falsy coordinate, leaves the gaze unchanged |
| GazeModel.FilterFirstSample | public/gaze-tester/gazeTracker.js:74-77 | the first usable prediction sets both eyes to exactly that point |
| GazeModel.FilterSmoothsBetween | public/gaze-tester/gazeTracker.js:78-85 | each later prediction moves every coordinate onto the segment between its old value and the raw value; equal eyes stay equal |
| GazeModel.SmoothScalesOffset | public/gaze-tester/gazeTracker.js:80-84 | one smoothing step scales each eye's offset from the raw point by 0.8 |
| GazeModel.FilterConverges | public/gaze-tester/gazeTracker.js:80-84 | with the gaze held on one point, each eye's offset from it, in x and in y, is 0.8^n times the initial one after n predictions |
| GazeTracker.Tracker.OnGaze | public/gaze-tester/gazeTracker.js:66-87 | the gaze listener applies one filter step and keeps the tracker invariant |
| GazeModel.CircularPath | public/gaze-tester/gazeTracker.js:127-138 | the path has 180 points; point i is the centre plus 200 times (cos, sin) of i·2π/180 |
| GazeModel.PathWithinRadius | public/gaze-tester/gazeTracker.js:134-135 | every path point lies within 200 px of the centre on each axis |
| GazeTracker.Tracker.GenerateCircularPath | public/gaze-tester/gazeTracker.js:127-138 | the loop builds exactly the circular path |
| GazeTracker.Tracker.StartTrackingTest | public/gaze-tester/gazeTracker.js:140-153 | calibration ends, the clock starts now, the trace is emptied, the gaze is forgotten, the path is rebuilt, the target is on its first point, and the invariant holds |
| GazeModel.Accuracy | public/gaze-tester/gazeTracker.js:155-192 | the score is always between 0 and 100 |
| GazeModel.ScoredCountBound | public/gaze-tester/gazeTracker.js:166-184 | the number of scored records is at most the trace length, and it is 0 exactly when no record is scored |
| GazeModel.ErrorSumBounds | public/gaze-tester/gazeTracker.js:182-184 | the summed error lies between 0 and the number of scored records |
| GazeModel.AccuracyWithoutScoredRecords | public/gaze-tester/gazeTracker.js:156-187 | an empty trace, or one with no scored record, scores 0 |
| GazeModel.AccuracyUnclamped | public/gaze-tester/gazeTracker.js:189-191 | with scored records the clamp never changes the rounded score |
| GazeModel.AccuracyIgnoresSkipped | public/gaze-tester/gazeTracker.js:168 | appending a record with a falsy eye does not change the score |
| GazeModel.AccuracyOnTarget | public/gaze-tester/gazeTracker.js:175-191 | gaze exactly on target at every scored record scores 100 |
| GazeModel.AccuracyFarOff | public/gaze-tester/gazeTracker.js:182-191 | every scored record at least 200 px off target scores 0 |
| GazeModel.AccuracyMonotone | public/gaze-tester/gazeTracker.js:175-191 | record by record closer gaze never scores lower |
| GazeModel.NormalizedErrorBounds | public/gaze-tester/gazeTracker.js:182 | the error of a record is in [0, 1]; it is 0 on target and 1 from 200 px |
| GazeModel.NormalizedErrorMonotone | public/gaze-tester/gazeTracker.js:182 | a larger distance is never penalised less |
| GazeTracker.Tracker.CalculateAccuracy | public/gaze-tester/gazeTracker.js:155-192 | the loop computes exactly the score function over the session's trace |
| GazeTracker.UpdateFps | public/gaze-tester/gazeTracker.js:194-201 | before 500 ms only the frame count grows; after it the rate is reset from the count and the span, and is at most two per counted frame |
| GazeModel.FpsEstimateBounds | public/gaze-tester/gazeTracker.js:197 | with at least 500 ms between readings the rate is between 0 and twice the frames |
| GazeTracker.UpdateFpsKeepsFpsOk | public/gaze-tester/gazeTracker.js:194-201 | the rate stays non-negative and the last reading never lies in the future |
| GazeModel.Progress | public/gaze-tester/gazeTracker.js:244 | progress never exceeds 1 and is elapsed/15000 before the end |
| GazeModel.ProgressComplete | public/gaze-tester/gazeTracker.js:244-247 | the test ends exactly when 15 s have elapsed |
| GazeModel.PathIndexInRange | public/gaze-tester/gazeTracker.js:245-254 | while the test runs the index is a valid path position: the 15000/180 ms slot the elapsed time falls in |
| GazeModel.PathIndexMonotone | public/gaze-tester/gazeTracker.js:245 | the target never moves backwards along the path |
| GazeModel.RemainingSecondsRange | public/gaze-tester/gazeTracker.js:301 | the countdown shown while the test runs is between 1 and 15 |
| GazeModel.RemainingSecondsMonotone | public/gaze-tester/gazeTracker.js:301 | the shown seconds never go up |
| GazeModel.DeviationPercent | public/gaze-tester/gazeTracker.js:284-286 | the live deviation percentage lies in [0, 100] |
| GazeModel.DeviationPercentEnds | public/gaze-tester/gazeTracker.js:284-286 | it is 100 on target and 0 from 200 px |
| GazeModel.DeviationPercentMonotone | public/gaze-tester/gazeTracker.js:284-286 | a larger deviation never shows a higher percentage |
| GazeTracker.TrackingTick | public/gaze-tester/gazeTracker.js:243-306 | once 15 s have passed the test stops and its accuracy is announced; before that the target moves to the path point of the elapsed time, the gaze is recorded exactly when both eyes are truthy, and the shown seconds are updated |
| GazeTracker.TrackingTickKeepsTrace | public/gaze-tester/gazeTracker.js:259-272 | the trace stays in tick order, every record is scored and lies within the 15 s |
| GazeTracker.TrackingTickKeepsSessionOk | public/gaze-tester/gazeTracker.js:243-306 | a tick keeps the session invariant: path, trace, announced accuracies and live readouts in range |
| GazeTracker.Tracker.TrackingStep | public/gaze-tester/gazeTracker.js:243-306 | the tracking branch of a frame performs exactly one tick |
| GazeTracker.Tracker.Animate | public/gaze-tester/gazeTracker.js:222-256 | a frame counts itself, performs a tick while a test runs and otherwise leaves the session alone, and keeps the invariant |
| GazeTracker.CountClick | public/gaze-tester/gazeTracker.js:354-363 | a counted click adds one to the dot's count and to the total, and hides the dot at its fifth click |
| GazeTracker.CountClickKeepsLegacyOk | public/gaze-tester/gazeTracker.js:339-364 | the skipped dot is never counted, a dot is hidden exactly when skipped or clicked 5 times, the total is the sum of the per-dot counts, and one sample is logged per click |
| GazeTracker.SumClicksIncrement | public/gaze-tester/gazeTracker.js:354-355 | one more click on a dot adds exactly one to the total |
| GazeTracker.Tracker.LegacyDotClick | public/gaze-tester/gazeTracker.js:351-369 | a click on the skipped dot changes nothing; any other click counts, logs a sample and hides the dot at its fifth click; from the 40th click on the container is hidden, shows 3 and a countdown starts, and before that the container and the countdowns are unchanged |
| GazeTracker.Tracker.StartCountdown | public/gaze-tester/gazeTracker.js:372-383 | calibration ends, the container shows 3 and a countdown chain is scheduled |
| GazeTracker.Tracker.CountdownStep | public/gaze-tester/gazeTracker.js:382-406 | a countdown timer shows its number and schedules the next, or after 0 clears the container and starts the test |
| GazeTracker.Tracker.CalibrationClick | public/gaze-tester/gazeTracker.js:457-492 | a click while clicks are enabled counts and logs a sample at the current point; the fifth disables clicks and arms the 300 ms timer; a disabled click does nothing |
| GazeTracker.Tracker.AdvanceTimer | public/gaze-tester/gazeTracker.js:482-511 | the timer moves to the next point and re-enables clicks, or after the ninth point starts the countdown with the click counter left at 5 and clicks still disabled; five samples are logged per finished point |
| GazeTracker.Tracker.Resize | public/gaze-tester/gazeTracker.js:10-26 | the path centre follows the window, and the path is rebuilt only while a test runs |
| GazeTracker.Tracker.constructor | public/gaze-tester/gazeTracker.js:98-115 | the script's initial state, with the top-left legacy dot hidden and the first calibration point shown |
| Snellen.SnellenLevelsShrink | app/page.tsx:29-41 | every level has a smaller font and multiplier than the one before |
| Snellen.SizeForLevel | app/page.tsx:49-55 | every size is positive |
| Snellen.SizeForLevelHalves | app/page.tsx:49-55 | each level's size is half the previous one |
| Snellen.SizeForLevelDecreasing | app/page.tsx:49-55 | sizes strictly decrease with the level |
| Snellen.SnellenRatioMonotone | app/page.tsx:74-97 | every reported ratio is on the 20/200 to 20/10 scale, and a higher index never reports a worse ratio |
| Snellen.VisionQualityMonotone | app/page.tsx:100-107 | the verdict never worsens as the index grows, and different verdicts have different texts |
| Snellen.SpellOutNormalizes | app/page.tsx:452-454 | letters said one word at a time normalise to the lowered letters |
| Snellen.SpelledTargetAccepted | app/page.tsx:452-455 | saying the target's letters one word at a time is accepted, whatever the case each letter is said in |
| Snellen.AnswerNeedsSameLength | app/page.tsx:452-455 | a transcript with a different number of non-space characters is rejected |
| Snellen.StoredAccuracyRange | app/page.tsx:477 | the stored percentage is between 9 and 100 and grows with the level |
| Snellen.Stored | app/page.tsx:476-479 | the stored score is the prescription the handler saw |
| Snellen.PerfectRunStoresPreviousLevel | app/page.tsx:462-479 | a perfect run stores "20/25" and "91%" |
| Snellen.AcuityTest.constructor | app/page.tsx:110-122 | the initial page state |
| Snellen.AcuityTest.AttemptsRemaining | app/page.tsx:618 | during the test 1 to 3 attempts remain |
| Snellen.AcuityTest.StartTest | app/page.tsx:389-392 | the introduction moves on to the distance guide |
| Snellen.AcuityTest.StartLetterTest | app/page.tsx:394-427 | new letters at the current level, progress from the level index, fresh attempts |
| Snellen.AcuityTest.HandleVoiceResult | app/page.tsx:446-504 | a correct answer records the level and moves on, or at the last level ends and stores the previously seen results, leaving the letters and the progress bar as they were; a wrong answer counts and keeps the progress bar, and the third ends and stores; each answer in the test uses up the remaining budget of at most 33 |
| Snellen.AcuityTest.CorrectAnswer | app/page.tsx:457-481 | the correct-answer branch, with every field it may change stated on both of its paths |
| Snellen.AcuityTest.WrongAnswer | app/page.tsx:482-503 | the wrong-answer branch |
| Snellen.AcuityTest.QuitTest | app/page.tsx:703-708 | "Quit Test" goes straight to the results view; the results and the storage are unchanged |
| Snellen.AcuityTest.RestartTest | app/page.tsx:429-444 | back to the introduction at the first level; storage is kept |
| Peripheral.SizeForLevel | app/peripheral/page.tsx:46-52 | every size is positive |
| Peripheral.SizeForLevelDecreasing | app/peripheral/page.tsx:46-52 | sizes strictly decrease with the level |
| Peripheral.RandomPosition | app/peripheral/page.tsx:14-34 | the letter sits 5% of the width from the left or right edge and within 15% of the test area's height of its centre line |
| Peripheral.AnswerCorrectIffHeard | app/peripheral/page.tsx:331-332 | an answer is correct exactly when the letter, in either case, occurs anywhere in the transcript |
| Peripheral.Score | app/peripheral/page.tsx:350 | the rounded percentage lies in [0, 100] |
| Peripheral.TiersAgree | app/peripheral/page.tsx:699-729 | with fewer than 40 answers, the tier of the rounded score equals the tier of the unrounded ratio of the same tally |
| Peripheral.ClosingCanDisagreeWithScreen | app/peripheral/page.tsx:345-403 | the closing tier of the tally before the final answer can differ from the on-screen tier of the tally after it, in both directions |
| Peripheral.PeripheralTest.constructor | app/peripheral/page.tsx:68-78 | the initial page state |
| Peripheral.PeripheralTest.StartTest | app/peripheral/page.tsx:262-265 | the introduction moves on to the distance guide, with the tally still empty |
| Peripheral.PeripheralTest.StartPeripheralTest | app/peripheral/page.tsx:267-287 | an empty tally, the first trial with the given letter and position, progress 0 |
| Peripheral.PeripheralTest.RestartTest | app/peripheral/page.tsx:310-321 | back to the introduction; the failed-attempt counter is kept |
| Peripheral.PeripheralTest.ViewResults | app/peripheral/page.tsx:458-472 | "View Results" switches to the results view and keeps the tally; from the distance guide the shown score is NaN and the interpretation the lowest |
| Peripheral.PeripheralTest.NextTrial | app/peripheral/page.tsx:366-371 | the next trial with a new letter and position, progress as the share of trials done |
| Peripheral.PeripheralTest.HandleVoiceResult | app/peripheral/page.tsx:323-444 | the tally counts every answer and exactly the correct ones; a correct answer or a second miss moves to the next trial with a new letter, position and progress, or at the sixth trial ends with the closing tier of the tally seen before the answer and leaves the trial's letter, position and progress as they were; a first miss retries the same trial with a new letter and position; the closing remark changes only at the end; each answer in the test uses up the remaining budget of at most 12 |
| Peripheral.PeripheralTest.CorrectAnswer | app/peripheral/page.tsx:335-376 | the correct-answer branch: one more correct and one more answer, the attempt counter cleared, then the next trial or, after the sixth, the end with the closing tier of the earlier tally |
| Peripheral.PeripheralTest.MissedAnswer | app/peripheral/page.tsx:335-443 | the wrong-answer branch: one more answer, then a retry of the same trial, the next trial after a second miss, or after the sixth trial the end with the closing tier of the earlier tally |
| Peripheral.FiveHitsThenDoubleMiss | app/peripheral/page.tsx:323-444 | a whole test with five first-try hits and two misses on the sixth trial ends with the top tier spoken and the middle tier shown |
| Peripheral.PeripheralTest.DisplayedScore | app/peripheral/page.tsx:685-687 | the shown percentage is NaN exactly when no answer was given, and the rounded score otherwise; the tier the "Read Results" button speaks for it always equals the interpretation's |
| Peripheral.PeripheralTest.StoreScore | app/peripheral/page.tsx:752-758 | the stored `peripheralAccuracy` is the displayed percentage followed by "%", or "NaN%" when no answer was given |
| GazeResults.Loaded | app/gaze-tester/results/page.tsx:62-70 | a stored value replaces the default exactly when it is present and not empty |
| GazeResults.Load | app/gaze-tester/results/page.tsx:8-9 | each figure is its stored value or its default ("95%", "0.5s"), and neither shown figure is ever empty |
| GazeResults.LoadShownIsFixed | app/gaze-tester/results/page.tsx:65-70 | loading again from the shown figures changes nothing |
| GazeResults.ClassifyMonotone | app/gaze-tester/results/page.tsx:116-125 | better accuracy and a faster reaction never earn a lower tier |
| GazeResults.UnparseableAccuracyPractices | app/gaze-tester/results/page.tsx:116-125 | an accuracy with no leading integer always gets the practice tier |
| GazeResults.ClassifyPrintedFigures | app/gaze-tester/results/page.tsx:116-121 | figures printed as "n%" and "w.fs" are classified by their numeric values |
| GazeResults.DefaultsAreExcellent | app/gaze-tester/results/page.tsx:119 | the defaults get the excellent tier |
| GazeResults.InterpretationAgreesWithSpoken | app/gaze-tester/results/page.tsx:206-211 | the on-screen paragraph picks the same tier as the spoken one; it is the same sentence, plus one more for the practice tier |
| GazeResults.SpeakResults | app/gaze-tester/results/page.tsx:111-128 | apart from pauses, the spoken text is word for word the summary, with every number set apart |

## Left out

- The eye-tracking engine (`webgazer`): its set-up, parameters and video sizing are left out. Its predictions are inputs to `OnGaze`, and its `recordScreenPosition` calls are kept only as a ghost log of positions.
- Canvas drawing is left out: backgrounds, the target image, lasers, gaze dots, text layout, the countdown painted on the canvas, and dot colours and counters. Of the drawn text the model keeps only the values shown: the live statistics, the remaining seconds and the countdown number.
- Sounds, speech synthesis, voice selection, microphone handling and the logo blink timers are left out. Awaiting speech only delays a handler, and the model runs each handler to completion as one step.
- `alert` is modelled as appending the announced accuracy to `alerts`. The calibration-complete alert and its messages are not modelled; `completeCalibration` is folded into `AdvanceTimer`.
- Floating point is left out: numbers are exact reals. `Math.sqrt`, `Math.pow`, `Math.cos` and `Math.sin` are abstract, and the proofs use only the facts in `GazeModel.Sound`.
- The first animation frame runs without a timestamp. `Tracker.constructor` models its only effect, a frame count of 1, and `trackingStartTime`'s initial `null` is represented as 0, which is never read before a test starts.
- Dead state is left out: `calibrationComplete`, `gazeData`, `lastGazeX`, `lastGazeY` and the second `smoothingFactor` (0.95) are written or declared but never read.
- The second resize listener (public/gaze-tester/gazeTracker.js:514-518) only resizes the canvas. The 100 ms debounce of the first listener is collapsed into one `Resize` event.
- `Tracker.CalculateAccuracy`: JavaScript also treats `NaN` as a falsy coordinate. The model's coordinates are reals, so a recorded `NaN` cannot arise.
- The pages' colours (`generateColor`, `LEVEL_COLORS`) are left out. On the peripheral page `LEVEL_COLORS[currentLevel]` is undefined at the sixth trial, but the value is never used.
- `Snellen.SnellenRatio` and `Snellen.VisionQuality` model `calculateSnellenRatio` and `getVisionQuality`, which the page defines but never calls. `Snellen.SizeForLevel` models `getSizeForLevel` (app/page.tsx:49), which is never called either: the letters take their size from the level table (app/page.tsx:417 and 665).
- The acuity page's letter font size comes from the level table; only the table is modelled, not the styling.
- Random draws (`generateRandomString`, `generateRandomLetter`, `generateRandomPosition`'s two `Math.random` calls) are parameters. The methods require what the generators always produce: five lower-case letters, or one capital letter.
- Peripheral.RandomPosition: the vertical bound is stated only for a test area of positive height (window height over 250 px).
- Peripheral.PeripheralTest.HandleVoiceResult: the closing remark is recorded as its tier and branch (`Closing`, with its text in `ClosingMessage`). The spoken string `formatSpeech("All done! " + message)` is not composed.
- The peripheral "Read Results" button (app/peripheral/page.tsx:719-731) is covered through its tier, `NumTier(DisplayedScore())`, which always equals the on-screen interpretation's, NaN included. Its texts are not modelled.
- JsText.Lower: `toLowerCase` lowers all of Unicode; the model lowers the ASCII capitals A-Z only and keeps every other character. Beyond ASCII it differs: "\u0130" becomes two code units and the Kelvin sign "\u212A" becomes "k" in JavaScript, while the model keeps them. The pages compare transcripts with ASCII letters, but a transcript holding such a character can be judged differently.
- Links that leave a page ("Back to Snellen Test", "Try Gaze Test", the results page's links) are navigation and are not modelled.
- Nothing among these sources writes `gazeAccuracy` or `reactionTime`. The gaze results page therefore shows the defaults unless another page stores values; the model takes the stored values as inputs.
- `app/results/page.tsx`, `app/gaze-tester/page.tsx`, the components and the layout only read storage and render, and are not part of this model.
