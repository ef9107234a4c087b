/**
 * The value-level pieces of the gaze tracker: the smoothing filter the gaze
 * listener applies, the circular target path, the mapping from elapsed time
 * to a path index, and the accuracy score over a recorded trace.
 *
 * `Math.sqrt`, `Math.pow(v, 1.5)`, `Math.cos` and `Math.sin` are carried as
 * function values in a `MathLib`; `Sound` states the only facts about them
 * the proofs use.
 */
module GazeModel {
  import opened JsCore

  datatype Point = Point(x: real, y: real)

  /** The floating-point library the tracker calls, kept abstract. */
  datatype MathLib = MathLib(sqrt: real -> real, pow15: real -> real, cos: real -> real, sin: real -> real)

  /** The facts about the library the proofs rely on. */
  ghost predicate Sound(m: MathLib)
  {
    && m.sqrt(0.0) == 0.0
    && (forall a :: m.sqrt(a) >= 0.0)
    && m.pow15(0.0) == 0.0
    && m.pow15(1.0) == 1.0
    && (forall a :: a >= 0.0 ==> m.pow15(a) >= 0.0)
    && (forall a, b :: 0.0 <= a <= b ==> m.pow15(a) <= m.pow15(b))
    && (forall a :: -1.0 <= m.cos(a) <= 1.0)
    && (forall a :: -1.0 <= m.sin(a) <= 1.0)
  }

  /*
   * ----- Gaze filter -----
   */

  /** Both eyes' latest estimate; `Unset` while both are still `null`. */
  datatype Gaze = Unset | Set(left: Point, right: Point)

  /**
   * One prediction from the gaze engine: `None` for a `null` prediction,
   * and a coordinate of `None` for `null`, `undefined` or `NaN`.
   */
  datatype RawSample = RawSample(x: Option<real>, y: Option<real>)

  /** JavaScript truthiness of a possibly missing number. */
  predicate Truthy(v: Option<real>)
  {
    v.Some? && v.value != 0.0
  }

  /** The sample is used only when both coordinates are truthy. */
  predicate Usable(data: Option<RawSample>)
  {
    data.Some? && Truthy(data.value.x) && Truthy(data.value.y)
  }

  function SampleOf(data: Option<RawSample>): Point
    requires Usable(data)
  {
    Point(data.value.x.value, data.value.y.value)
  }

  const SmoothingFactor: real := 0.8

  /** `prev * 0.8 + raw * (1 - 0.8)`, coordinate by coordinate. */
  function Smooth(prev: Point, raw: Point): Point
  {
    Point(prev.x * SmoothingFactor + raw.x * (1.0 - SmoothingFactor),
          prev.y * SmoothingFactor + raw.y * (1.0 - SmoothingFactor))
  }

  /** What the gaze listener does to `currentGaze` for one prediction. */
  function FilterStep(g: Gaze, data: Option<RawSample>): Gaze
  {
    if !Usable(data) then g
    else
      var p := SampleOf(data);
      match g
      case Unset => Set(p, p)
      case Set(l, r) => Set(Smooth(l, p), Smooth(r, p))
  }

  /** `v` lies on the closed segment between `a` and `b`. */
  predicate Between(v: real, a: real, b: real)
  {
    (a <= v <= b) || (b <= v <= a)
  }

  /** A null prediction, or one with a falsy coordinate, changes nothing. */
  lemma FilterIgnoresUnusable(g: Gaze, data: Option<RawSample>)
    requires data.None? || !Truthy(data.value.x) || !Truthy(data.value.y)
    ensures FilterStep(g, data) == g
  {
  }

  /** The first usable prediction sets both eyes to exactly that point. */
  lemma FilterFirstSample(data: Option<RawSample>)
    requires Usable(data)
    ensures FilterStep(Unset, data) == Set(SampleOf(data), SampleOf(data))
    ensures FilterStep(Unset, data).left.x == data.value.x.value
  {
  }

  /**
   * A later usable prediction moves every coordinate of both eyes onto the
   * segment between its old value and the raw value, and keeps the eyes
   * equal when they were equal.
   */
  lemma FilterSmoothsBetween(g: Gaze, data: Option<RawSample>)
    requires g.Set? && Usable(data)
    ensures var p := SampleOf(data); var n := FilterStep(g, data);
      && n.Set?
      && Between(n.left.x, g.left.x, p.x) && Between(n.left.y, g.left.y, p.y)
      && Between(n.right.x, g.right.x, p.x) && Between(n.right.y, g.right.y, p.y)
      && (g.left == g.right ==> n.left == n.right)
  {
  }

  /** The filter applied to the same prediction `n` times. */
  function FilterRepeat(g: Gaze, data: Option<RawSample>, n: nat): Gaze
  {
    if n == 0 then g else FilterStep(FilterRepeat(g, data, n - 1), data)
  }

  /** The offset of `a` from `b`, coordinate by coordinate. */
  function Offset(a: Point, b: Point): Point
  {
    Point(a.x - b.x, a.y - b.y)
  }

  function Scaled(k: real, v: Point): Point
  {
    Point(k * v.x, k * v.y)
  }

  /** One smoothing step towards `raw` scales the offset from `raw` by 0.8. */
  lemma SmoothScalesOffset(prev: Point, raw: Point)
    ensures Offset(Smooth(prev, raw), raw) == Scaled(SmoothingFactor, Offset(prev, raw))
  {
  }

  lemma ScaledTwice(a: real, b: real, v: Point)
    ensures Scaled(a, Scaled(b, v)) == Scaled(a * b, v)
  {
  }

  /**
   * Holding the gaze on one point, the offset of each eye from it shrinks
   * by the factor 0.8 per prediction, in both coordinates.
   */
  lemma {:induction false} FilterConverges(g: Gaze, data: Option<RawSample>, n: nat)
    requires g.Set? && Usable(data)
    ensures FilterRepeat(g, data, n).Set?
    ensures Offset(FilterRepeat(g, data, n).left, SampleOf(data))
      == Scaled(Power(SmoothingFactor, n), Offset(g.left, SampleOf(data)))
    ensures Offset(FilterRepeat(g, data, n).right, SampleOf(data))
      == Scaled(Power(SmoothingFactor, n), Offset(g.right, SampleOf(data)))
  {
    if n > 0 {
      FilterConverges(g, data, n - 1);
      var prev := FilterRepeat(g, data, n - 1);
      var p := SampleOf(data);
      assert FilterRepeat(g, data, n) == Set(Smooth(prev.left, p), Smooth(prev.right, p));
      SmoothScalesOffset(prev.left, p);
      SmoothScalesOffset(prev.right, p);
      ScaledTwice(SmoothingFactor, Power(SmoothingFactor, n - 1), Offset(g.left, p));
      ScaledTwice(SmoothingFactor, Power(SmoothingFactor, n - 1), Offset(g.right, p));
    }
  }

  /** Both eyes' x are truthy, the test the tracker applies before using the gaze. */
  predicate EyesTruthy(g: Gaze)
  {
    g.Set? && g.left.x != 0.0 && g.right.x != 0.0
  }

  /*
   * ----- Target path -----
   */

  /** `Math.PI` as a double. */
  const Pi: real := 3.141592653589793
  const PathSteps: nat := 180
  const PathRadius: real := 200.0
  const AngleStep: real := Pi * 2.0 / 180.0

  /** Point `i` of the circular path around `center`. */
  function PathPoint(m: MathLib, center: Point, i: nat): Point
  {
    Point(center.x + m.cos(i as real * AngleStep) * PathRadius,
          center.y + m.sin(i as real * AngleStep) * PathRadius)
  }

  /** `generateCircularPath`: 180 points on a circle of radius 200. */
  function CircularPath(m: MathLib, center: Point): (path: seq<Point>)
    ensures |path| == PathSteps
    ensures forall i :: 0 <= i < |path| ==> path[i] == PathPoint(m, center, i)
  {
    seq(PathSteps, i requires 0 <= i => PathPoint(m, center, i))
  }

  /** Every path point lies within the 400 x 400 square around the centre. */
  lemma PathWithinRadius(m: MathLib, center: Point, i: nat)
    requires Sound(m) && i < PathSteps
    ensures var p := CircularPath(m, center)[i];
      && center.x - PathRadius <= p.x <= center.x + PathRadius
      && center.y - PathRadius <= p.y <= center.y + PathRadius
  {
    var a := i as real * AngleStep;
    assert -1.0 <= m.cos(a) <= 1.0 && -1.0 <= m.sin(a) <= 1.0;
  }

  /*
   * ----- Tracking clock -----
   */

  const TrackingDuration: real := 15000.0

  /** `Math.min(elapsed / 15000, 1)`. */
  function Progress(elapsed: real): (r: real)
    ensures r <= 1.0
    ensures elapsed < TrackingDuration ==> r == elapsed / TrackingDuration
  {
    MinReal(elapsed / TrackingDuration, 1.0)
  }

  /** The test ends exactly when 15 s have elapsed. */
  lemma ProgressComplete(elapsed: real)
    ensures Progress(elapsed) >= 1.0 <==> elapsed >= TrackingDuration
  {
  }

  /** `Math.floor(progress * testPath.length)` with the path's 180 points. */
  function PathIndex(elapsed: real): int
  {
    (Progress(elapsed) * PathSteps as real).Floor
  }

  /**
   * While the test runs the index is a valid path position, and it is the
   * slot of 15000/180 ms that the elapsed time falls in.
   */
  lemma PathIndexInRange(elapsed: real)
    requires 0.0 <= elapsed < TrackingDuration
    ensures 0 <= PathIndex(elapsed) < PathSteps
    ensures PathIndex(elapsed) as real * TrackingDuration <= elapsed * PathSteps as real
    ensures elapsed * PathSteps as real < (PathIndex(elapsed) + 1) as real * TrackingDuration
  {
    var k := PathIndex(elapsed);
    assert k as real <= elapsed / TrackingDuration * 180.0 < k as real + 1.0;
  }

  /** The target never moves backwards along the path. */
  lemma PathIndexMonotone(e1: real, e2: real)
    requires e1 <= e2
    ensures PathIndex(e1) <= PathIndex(e2)
  {
    assert Progress(e1) <= Progress(e2);
  }

  /** The seconds shown while the test runs, `Math.ceil((15000 - elapsed) / 1000)`. */
  function RemainingSeconds(elapsed: real): int
  {
    Ceil((TrackingDuration - elapsed) / 1000.0)
  }

  lemma RemainingSecondsRange(elapsed: real)
    requires 0.0 <= elapsed < TrackingDuration
    ensures 1 <= RemainingSeconds(elapsed) <= 15
  {
  }

  lemma RemainingSecondsMonotone(e1: real, e2: real)
    requires e1 <= e2
    ensures RemainingSeconds(e2) <= RemainingSeconds(e1)
  {
  }

  /*
   * ----- Accuracy score -----
   */

  /** One entry of `trackingData`: copies of both eyes, the target and the time since the start. */
  datatype TrackingRecord = TrackingRecord(left: Point, right: Point, target: Point, timestamp: real)

  /** `circle.radius`. */
  const TargetRadius: real := 25.0
  /** `circle.radius * 8`: the distance from which a record scores nothing. */
  const MaxErrorDistance: real := TargetRadius * 8.0

  /** A record counts only when both eyes' x are truthy. */
  predicate Scored(r: TrackingRecord)
  {
    r.left.x != 0.0 && r.right.x != 0.0
  }

  function Square(v: real): real
  {
    v * v
  }

  /** Distance from the average of the two eyes to a target. */
  function GazeDistance(m: MathLib, left: Point, right: Point, target: Point): real
  {
    m.sqrt(Square((left.x + right.x) / 2.0 - target.x) + Square((left.y + right.y) / 2.0 - target.y))
  }

  function RecordDistance(m: MathLib, r: TrackingRecord): real
  {
    GazeDistance(m, r.left, r.right, r.target)
  }

  /** `Math.min(1, Math.pow(distance / maxErrorDistance, 1.5))`. */
  function NormalizedError(m: MathLib, distance: real): (e: real)
    ensures e <= 1.0
  {
    MinReal(1.0, m.pow15(distance / MaxErrorDistance))
  }

  lemma NormalizedErrorBounds(m: MathLib, distance: real)
    requires Sound(m) && distance >= 0.0
    ensures 0.0 <= NormalizedError(m, distance) <= 1.0
    ensures distance == 0.0 ==> NormalizedError(m, distance) == 0.0
    ensures distance >= MaxErrorDistance ==> NormalizedError(m, distance) == 1.0
  {
    if distance >= MaxErrorDistance {
      assert m.pow15(1.0) <= m.pow15(distance / MaxErrorDistance);
    }
  }

  /** A larger distance is never penalised less. */
  lemma NormalizedErrorMonotone(m: MathLib, d1: real, d2: real)
    requires Sound(m) && 0.0 <= d1 <= d2
    ensures NormalizedError(m, d1) <= NormalizedError(m, d2)
  {
    assert m.pow15(d1 / MaxErrorDistance) <= m.pow15(d2 / MaxErrorDistance);
  }

  function RecordError(m: MathLib, r: TrackingRecord): real
  {
    NormalizedError(m, RecordDistance(m, r))
  }

  /** `totalError` after the loop has seen the first `n` records: the errors of the scored ones. */
  function ErrorSumTo(m: MathLib, trace: seq<TrackingRecord>, n: nat): real
    requires n <= |trace|
    decreases n
  {
    if n == 0 then 0.0
    else ErrorSumTo(m, trace, n - 1) + (if Scored(trace[n - 1]) then RecordError(m, trace[n - 1]) else 0.0)
  }

  /** `validSamples` after the loop has seen the first `n` records. */
  function ScoredCountTo(trace: seq<TrackingRecord>, n: nat): nat
    requires n <= |trace|
    decreases n
  {
    if n == 0 then 0
    else ScoredCountTo(trace, n - 1) + (if Scored(trace[n - 1]) then 1 else 0)
  }

  /** `totalError` after the loop has seen the whole trace. */
  function ErrorSum(m: MathLib, trace: seq<TrackingRecord>): real
  {
    ErrorSumTo(m, trace, |trace|)
  }

  /** `validSamples` after the loop has seen the whole trace. */
  function ScoredCount(trace: seq<TrackingRecord>): nat
  {
    ScoredCountTo(trace, |trace|)
  }

  /** The sums over the first `n` records depend only on those records. */
  lemma {:induction false} SumsOfSamePrefix(m: MathLib, t1: seq<TrackingRecord>, t2: seq<TrackingRecord>, n: nat)
    requires n <= |t1| && n <= |t2|
    requires forall i :: 0 <= i < n ==> t1[i] == t2[i]
    ensures ErrorSumTo(m, t1, n) == ErrorSumTo(m, t2, n)
    ensures ScoredCountTo(t1, n) == ScoredCountTo(t2, n)
    decreases n
  {
    if n > 0 {
      SumsOfSamePrefix(m, t1, t2, n - 1);
      assert t1[n - 1] == t2[n - 1];
    }
  }

  /** `calculateAccuracy` over a trace. */
  function Accuracy(m: MathLib, trace: seq<TrackingRecord>): (a: int)
    ensures 0 <= a <= 100
  {
    if |trace| == 0 then 0
    else
      var n := ScoredCount(trace);
      if n == 0 then 0
      else ClampInt(0, 100, Round(100.0 * (1.0 - ErrorSum(m, trace) / n as real)))
  }

  lemma ScoredCountBound(trace: seq<TrackingRecord>)
    ensures ScoredCount(trace) <= |trace|
    ensures ScoredCount(trace) == 0 <==> forall i :: 0 <= i < |trace| ==> !Scored(trace[i])
  {
    ScoredCountToBound(trace, |trace|);
  }

  lemma {:induction false} ScoredCountToBound(trace: seq<TrackingRecord>, n: nat)
    requires n <= |trace|
    ensures ScoredCountTo(trace, n) <= n
    ensures ScoredCountTo(trace, n) == 0 <==> forall i :: 0 <= i < n ==> !Scored(trace[i])
    decreases n
  {
    if n > 0 {
      ScoredCountToBound(trace, n - 1);
    }
  }

  /** The summed error lies between 0 and the number of scored records. */
  lemma ErrorSumBounds(m: MathLib, trace: seq<TrackingRecord>)
    requires Sound(m)
    ensures 0.0 <= ErrorSum(m, trace) <= ScoredCount(trace) as real
  {
    ErrorSumToBounds(m, trace, |trace|);
  }

  lemma {:induction false} ErrorSumToBounds(m: MathLib, trace: seq<TrackingRecord>, n: nat)
    requires Sound(m) && n <= |trace|
    ensures 0.0 <= ErrorSumTo(m, trace, n) <= ScoredCountTo(trace, n) as real
    decreases n
  {
    if n > 0 {
      ErrorSumToBounds(m, trace, n - 1);
      NormalizedErrorBounds(m, RecordDistance(m, trace[n - 1]));
    }
  }

  /** An empty trace, or one whose every record is skipped, scores 0. */
  lemma AccuracyWithoutScoredRecords(m: MathLib, trace: seq<TrackingRecord>)
    requires forall i :: 0 <= i < |trace| ==> !Scored(trace[i])
    ensures Accuracy(m, trace) == 0
  {
    ScoredCountBound(trace);
  }

  /** The clamp to [0, 100] never changes a score that has scored records. */
  lemma AccuracyUnclamped(m: MathLib, trace: seq<TrackingRecord>)
    requires Sound(m) && ScoredCount(trace) > 0
    ensures Accuracy(m, trace) == Round(100.0 * (1.0 - ErrorSum(m, trace) / ScoredCount(trace) as real))
  {
    ErrorSumBounds(m, trace);
    ScoredCountBound(trace);
    RatioInUnit(ErrorSum(m, trace), ScoredCount(trace) as real);
    ScoreInRange(ErrorSum(m, trace) / ScoredCount(trace) as real);
  }

  lemma RatioInUnit(s: real, n: real)
    requires n > 0.0 && 0.0 <= s <= n
    ensures 0.0 <= s / n <= 1.0
  {
    var q := s / n;
    assert q * n == s;
  }

  lemma ScoreInRange(q: real)
    requires 0.0 <= q <= 1.0
    ensures 0 <= Round(100.0 * (1.0 - q)) <= 100
  {
  }

  /** A skipped record appended to a trace leaves its score unchanged. */
  lemma AccuracyIgnoresSkipped(m: MathLib, trace: seq<TrackingRecord>, r: TrackingRecord)
    requires !Scored(r)
    ensures Accuracy(m, trace + [r]) == Accuracy(m, trace)
  {
    var longer := trace + [r];
    SumsOfSamePrefix(m, longer, trace, |trace|);
    assert longer[|trace|] == r;
    assert ErrorSum(m, longer) == ErrorSum(m, trace) && ScoredCount(longer) == ScoredCount(trace);
  }

  /** Gaze on target at every scored record, with at least one scored record, scores 100. */
  lemma AccuracyOnTarget(m: MathLib, trace: seq<TrackingRecord>)
    requires Sound(m) && ScoredCount(trace) > 0
    requires forall i :: 0 <= i < |trace| && Scored(trace[i]) ==> RecordDistance(m, trace[i]) == 0.0
    ensures Accuracy(m, trace) == 100
  {
    ErrorSumZero(m, trace, |trace|);
    ScoredCountBound(trace);
  }

  lemma {:induction false} ErrorSumZero(m: MathLib, trace: seq<TrackingRecord>, n: nat)
    requires Sound(m) && n <= |trace|
    requires forall i :: 0 <= i < n && Scored(trace[i]) ==> RecordDistance(m, trace[i]) == 0.0
    ensures ErrorSumTo(m, trace, n) == 0.0
    decreases n
  {
    if n > 0 {
      ErrorSumZero(m, trace, n - 1);
      NormalizedErrorBounds(m, RecordDistance(m, trace[n - 1]));
    }
  }

  /** Every scored record at least 200 px off target scores 0. */
  lemma AccuracyFarOff(m: MathLib, trace: seq<TrackingRecord>)
    requires Sound(m)
    requires forall i :: 0 <= i < |trace| && Scored(trace[i]) ==> RecordDistance(m, trace[i]) >= MaxErrorDistance
    ensures Accuracy(m, trace) == 0
  {
    ErrorSumFull(m, trace, |trace|);
    var n := ScoredCount(trace) as real;
    if n > 0.0 {
      assert ErrorSum(m, trace) / n == 1.0;
    }
  }

  lemma {:induction false} ErrorSumFull(m: MathLib, trace: seq<TrackingRecord>, n: nat)
    requires Sound(m) && n <= |trace|
    requires forall i :: 0 <= i < n && Scored(trace[i]) ==> RecordDistance(m, trace[i]) >= MaxErrorDistance
    ensures ErrorSumTo(m, trace, n) == ScoredCountTo(trace, n) as real
    decreases n
  {
    if n > 0 {
      ErrorSumFull(m, trace, n - 1);
      NormalizedErrorBounds(m, RecordDistance(m, trace[n - 1]));
    }
  }

  /**
   * Of two traces that score the same records, the one whose every record
   * is at least as close to its target scores at least as high.
   */
  lemma AccuracyMonotone(m: MathLib, closer: seq<TrackingRecord>, farther: seq<TrackingRecord>)
    requires Sound(m) && |closer| == |farther|
    requires forall i :: 0 <= i < |closer| ==> Scored(closer[i]) == Scored(farther[i])
    requires forall i :: 0 <= i < |closer| ==> RecordDistance(m, closer[i]) <= RecordDistance(m, farther[i])
    ensures Accuracy(m, closer) >= Accuracy(m, farther)
  {
    ErrorSumMonotone(m, closer, farther, |closer|);
    var n := ScoredCount(closer);
    if n > 0 {
      var q1 := ErrorSum(m, closer) / n as real;
      var q2 := ErrorSum(m, farther) / n as real;
      QuotientMonotone(ErrorSum(m, closer), ErrorSum(m, farther), n as real);
      RoundMonotone(100.0 * (1.0 - q2), 100.0 * (1.0 - q1));
    }
  }

  lemma QuotientMonotone(a: real, b: real, n: real)
    requires a <= b && n > 0.0
    ensures a / n <= b / n
  {
    assert b / n - a / n == (b - a) / n;
  }

  lemma {:induction false} ErrorSumMonotone(m: MathLib, closer: seq<TrackingRecord>, farther: seq<TrackingRecord>, n: nat)
    requires Sound(m) && n <= |closer| && n <= |farther|
    requires forall i :: 0 <= i < n ==> Scored(closer[i]) == Scored(farther[i])
    requires forall i :: 0 <= i < n ==> RecordDistance(m, closer[i]) <= RecordDistance(m, farther[i])
    ensures ErrorSumTo(m, closer, n) <= ErrorSumTo(m, farther, n)
    ensures ScoredCountTo(closer, n) == ScoredCountTo(farther, n)
    decreases n
  {
    if n > 0 {
      var k := n - 1;
      ErrorSumMonotone(m, closer, farther, k);
      assert m.sqrt(0.0) == 0.0;
      assert RecordDistance(m, closer[k]) >= 0.0;
      NormalizedErrorMonotone(m, RecordDistance(m, closer[k]), RecordDistance(m, farther[k]));
    }
  }

  /*
   * ----- Live readouts -----
   */

  /**
   * The on-screen deviation percentage,
   * `max(0, min(100, round(100 * (1 - pow(dev / 200, 1.5)))))`; unlike the
   * score it does not cap the error at 1 before clamping.
   */
  function DeviationPercent(m: MathLib, deviation: real): (p: int)
    ensures 0 <= p <= 100
  {
    ClampInt(0, 100, Round(100.0 * (1.0 - m.pow15(deviation / MaxErrorDistance))))
  }

  lemma DeviationPercentEnds(m: MathLib, deviation: real)
    requires Sound(m) && deviation >= 0.0
    ensures deviation == 0.0 ==> DeviationPercent(m, deviation) == 100
    ensures deviation >= MaxErrorDistance ==> DeviationPercent(m, deviation) == 0
  {
    if deviation >= MaxErrorDistance {
      assert m.pow15(1.0) <= m.pow15(deviation / MaxErrorDistance);
    }
  }

  lemma DeviationPercentMonotone(m: MathLib, d1: real, d2: real)
    requires Sound(m) && 0.0 <= d1 <= d2
    ensures DeviationPercent(m, d2) <= DeviationPercent(m, d1)
  {
    assert m.pow15(d1 / MaxErrorDistance) <= m.pow15(d2 / MaxErrorDistance);
    RoundMonotone(100.0 * (1.0 - m.pow15(d2 / MaxErrorDistance)), 100.0 * (1.0 - m.pow15(d1 / MaxErrorDistance)));
  }

  /** `Math.round(frames * 1000 / span)`, computed once at least 500 ms have passed. */
  function FpsEstimate(frames: nat, span: real): int
    requires span >= 500.0
  {
    Round(frames as real * 1000.0 / span)
  }

  /** With at least 500 ms between updates the rate never exceeds two per counted frame. */
  lemma FpsEstimateBounds(frames: nat, span: real)
    requires span >= 500.0
    ensures 0 <= FpsEstimate(frames, span) <= 2 * frames
  {
    var q := frames as real * 1000.0 / span;
    assert q * span == frames as real * 1000.0;
    assert q >= 0.0;
    assert q * 500.0 <= q * span;
    assert q <= 2.0 * frames as real;
    RoundMonotone(q, 2.0 * frames as real);
    RoundMonotone(0.0, q);
  }
}
