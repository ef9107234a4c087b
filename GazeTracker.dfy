/**
 * The module-level state of the gaze tester page and the events that change
 * it: gaze predictions, animation frames, clicks on calibration dots, the
 * 300 ms advance timer, the one-second countdown timers and window resizes.
 *
 * The script's variables are grouped by the part of the page that owns
 * them (the tracking session, the frame counter, the calibration sequencer,
 * the older dot handler); each group is one field holding a record.
 * Timers and frames are explicit events; every timed event carries the time
 * it fires at, which never runs backwards (`clock`).
 */
module GazeTracker {
  import opened JsCore
  import opened GazeModel

  /** A dot position, as CSS percentages of the page. */
  datatype Placement = Placement(top: nat, left: nat)

  /** The nine dots of the calibration sequence, row by row. */
  const CalibrationPoints: seq<Placement> := [
    Placement(5, 5), Placement(5, 45), Placement(5, 85),
    Placement(45, 5), Placement(45, 45), Placement(45, 85),
    Placement(85, 5), Placement(85, 45), Placement(85, 85)
  ]

  const RequiredClicks: nat := 5
  /** The older dot handler waits for 5 clicks on each of 8 dots. */
  const TotalDotsNeeded: nat := 8
  const CountdownFrom: nat := 3
  /** Milliseconds between two FPS readings. */
  const FpsWindow: real := 500.0

  /** The older handler skips (and hides) a dot placed at the top left. */
  predicate IsTopLeft(p: Placement)
  {
    p.top == 5 && p.left == 5
  }

  /** What `#calibrationContainer` holds. */
  datatype Container = Empty | CalibrationDot | CountdownNumber(n: nat)

  /*
   * ----- Frame counter -----
   */

  datatype FpsCounter = FpsCounter(frameCount: nat, lastFpsUpdate: real, currentFps: int)

  /**
   * `updateFPS`: counts the frame and, once 500 ms have passed since the
   * last reading, turns the count into a rate and starts counting afresh.
   * The rate never exceeds two per counted frame.
   */
  function UpdateFps(c: FpsCounter, timestamp: real): (r: FpsCounter)
    ensures timestamp - c.lastFpsUpdate >= FpsWindow ==>
      && r.frameCount == 0 && r.lastFpsUpdate == timestamp
      && r.currentFps == FpsEstimate(c.frameCount + 1, timestamp - c.lastFpsUpdate)
      && 0 <= r.currentFps <= 2 * (c.frameCount + 1)
    ensures timestamp - c.lastFpsUpdate < FpsWindow ==>
      r == c.(frameCount := c.frameCount + 1)
  {
    var frames := c.frameCount + 1;
    if timestamp - c.lastFpsUpdate >= FpsWindow then
      FpsEstimateBounds(frames, timestamp - c.lastFpsUpdate);
      FpsCounter(0, timestamp, FpsEstimate(frames, timestamp - c.lastFpsUpdate))
    else c.(frameCount := frames)
  }

  /** The counter's reading is never negative and its last reading never lies in the future. */
  predicate FpsOk(c: FpsCounter, clock: real)
  {
    c.lastFpsUpdate <= clock && c.currentFps >= 0
  }

  lemma UpdateFpsKeepsFpsOk(c: FpsCounter, clock: real, timestamp: real)
    requires FpsOk(c, clock) && clock <= timestamp
    ensures FpsOk(UpdateFps(c, timestamp), timestamp)
  {
  }

  /*
   * ----- Tracking session -----
   */

  /** The three lines of statistics drawn while the gaze is on screen. */
  datatype LiveStats = LiveStats(deviationPx: int, deviationPercent: int, overall: int, fps: int)

  /**
   * The variables of one tracking test; `alerts` holds the accuracies
   * announced by "Tracking test complete!" alerts, oldest first.
   */
  datatype Session = Session(
    isTrackingTest: bool,
    trackingStartTime: real,
    trackingData: seq<TrackingRecord>,
    testPath: seq<Point>,
    circle: Point,
    alerts: seq<int>,
    liveStats: Option<LiveStats>,
    shownRemaining: Option<int>)

  /** Timestamps of the trace are non-decreasing. */
  predicate InTickOrder(trace: seq<TrackingRecord>)
  {
    forall i, j :: 0 <= i < j < |trace| ==> trace[i].timestamp <= trace[j].timestamp
  }

  /**
   * A trace the tracker records: in tick order, every record scored and
   * taken while the test ran, the latest no later than `sinceStart`.
   */
  predicate TraceOk(trace: seq<TrackingRecord>, sinceStart: real)
  {
    && InTickOrder(trace)
    && (forall i :: 0 <= i < |trace| ==> Scored(trace[i]) && 0.0 <= trace[i].timestamp < TrackingDuration)
    && (trace != [] ==> trace[|trace| - 1].timestamp <= sinceStart)
  }

  /** What a session can hold at time `clock`, with the path centred on `center`. */
  predicate SessionOk(m: MathLib, center: Point, s: Session, clock: real)
  {
    && (s.isTrackingTest ==> s.testPath == CircularPath(m, center) && s.trackingStartTime <= clock)
    && TraceOk(s.trackingData, clock - s.trackingStartTime)
    && (forall i :: 0 <= i < |s.alerts| ==> 0 <= s.alerts[i] <= 100)
    && (s.liveStats.Some? ==> 0 <= s.liveStats.value.deviationPercent <= 100 && 0 <= s.liveStats.value.overall <= 100)
    && (s.shownRemaining.Some? ==> 1 <= s.shownRemaining.value <= 15)
  }

  /** The record a running tick appends: copies of both eyes, the target, the elapsed time. */
  function RecordOf(gaze: Gaze, target: Point, elapsed: real): TrackingRecord
    requires gaze.Set?
  {
    TrackingRecord(gaze.left, gaze.right, target, elapsed)
  }

  /**
   * The tracking branch of `animate` at `timestamp`: past 15 s the test
   * stops and its accuracy is announced; before that the target moves to
   * the path point of the elapsed time, and the gaze is recorded (with the
   * live statistics) when both eyes are truthy.
   */
  function TrackingTick(m: MathLib, s: Session, gaze: Gaze, fps: int, timestamp: real): (r: Session)
    requires s.isTrackingTest && |s.testPath| == PathSteps && s.trackingStartTime <= timestamp
    ensures r.trackingStartTime == s.trackingStartTime && r.testPath == s.testPath
    ensures r.liveStats == s.liveStats
      || (r.liveStats.Some? && 0 <= r.liveStats.value.deviationPercent <= 100 && 0 <= r.liveStats.value.overall <= 100)
    ensures timestamp - s.trackingStartTime >= TrackingDuration ==>
      && !r.isTrackingTest && r.trackingData == s.trackingData && r.circle == s.circle
      && r.alerts == s.alerts + [Accuracy(m, s.trackingData)] && r.shownRemaining == s.shownRemaining
    ensures timestamp - s.trackingStartTime < TrackingDuration ==>
      var elapsed := timestamp - s.trackingStartTime;
      && r.isTrackingTest && r.alerts == s.alerts
      && r.circle == s.testPath[PathIndex(elapsed)]
      && r.trackingData == s.trackingData + (if EyesTruthy(gaze) then [RecordOf(gaze, r.circle, elapsed)] else [])
      && r.shownRemaining == Some(RemainingSeconds(elapsed))
  {
    var elapsed := timestamp - s.trackingStartTime;
    ProgressComplete(elapsed);
    if Progress(elapsed) >= 1.0 then
      s.(isTrackingTest := false, alerts := s.alerts + [Accuracy(m, s.trackingData)])
    else
      PathIndexInRange(elapsed);
      var target := s.testPath[PathIndex(elapsed)];
      var shown := Some(RemainingSeconds(elapsed));
      if EyesTruthy(gaze) then
        var trace := s.trackingData + [RecordOf(gaze, target, elapsed)];
        var deviation := GazeDistance(m, gaze.left, gaze.right, target);
        var stats := LiveStats(Round(deviation), DeviationPercent(m, deviation), Accuracy(m, trace), fps);
        s.(circle := target, trackingData := trace, liveStats := Some(stats), shownRemaining := shown)
      else
        s.(circle := target, shownRemaining := shown)
  }

  /** Appending a record taken at or after the latest one, during the test, keeps a trace well formed. */
  lemma TraceAppend(trace: seq<TrackingRecord>, rec: TrackingRecord, sinceStart: real)
    requires TraceOk(trace, sinceStart) && sinceStart <= rec.timestamp
    requires Scored(rec) && 0.0 <= rec.timestamp < TrackingDuration
    ensures TraceOk(trace + [rec], rec.timestamp)
  {
    assert forall i :: 0 <= i < |trace| ==> (trace + [rec])[i] == trace[i];
  }

  /** A later clock keeps a trace well formed. */
  lemma TraceLater(trace: seq<TrackingRecord>, sinceStart: real, later: real)
    requires TraceOk(trace, sinceStart) && sinceStart <= later
    ensures TraceOk(trace, later)
  {
  }

  /** The trace after a tick of a running test is well formed at the tick. */
  lemma TrackingTickKeepsTrace(m: MathLib, s: Session, gaze: Gaze, fps: int, timestamp: real, clock: real)
    requires s.isTrackingTest && |s.testPath| == PathSteps && s.trackingStartTime <= clock <= timestamp
    requires TraceOk(s.trackingData, clock - s.trackingStartTime)
    ensures TraceOk(TrackingTick(m, s, gaze, fps, timestamp).trackingData, timestamp - s.trackingStartTime)
  {
    var r := TrackingTick(m, s, gaze, fps, timestamp);
    var elapsed := timestamp - s.trackingStartTime;
    TraceLater(s.trackingData, clock - s.trackingStartTime, elapsed);
    if elapsed < TrackingDuration && EyesTruthy(gaze) {
      var rec := RecordOf(gaze, r.circle, elapsed);
      assert r.trackingData == s.trackingData + [rec];
      TraceAppend(s.trackingData, rec, elapsed);
    } else {
      assert r.trackingData == s.trackingData;
    }
  }

  /** A tick of a running test keeps the session consistent, with the clock moved to the tick. */
  lemma TrackingTickKeepsSessionOk(m: MathLib, center: Point, s: Session, gaze: Gaze, fps: int, timestamp: real, clock: real)
    requires SessionOk(m, center, s, clock) && s.isTrackingTest && clock <= timestamp
    ensures SessionOk(m, center, TrackingTick(m, s, gaze, fps, timestamp), timestamp)
  {
    var r := TrackingTick(m, s, gaze, fps, timestamp);
    var elapsed := timestamp - s.trackingStartTime;
    TrackingTickKeepsTrace(m, s, gaze, fps, timestamp, clock);
    if elapsed < TrackingDuration {
      RemainingSecondsRange(elapsed);
    } else {
      assert r.alerts == s.alerts + [Accuracy(m, s.trackingData)];
    }
  }

  /*
   * ----- Calibration sequencer -----
   */

  datatype Sequencer = Sequencer(
    currentCalibrationPoint: nat,
    currentClickCount: nat,
    isClickEnabled: bool,
    /** A 300 ms timer that moves on to the next point is pending. */
    advancePending: bool)

  /**
   * The sequencer's counters: at most 5 clicks per point, clicks enabled
   * exactly until the fifth, the advance timer pending exactly after it,
   * and five samples logged at each finished point.
   */
  ghost predicate SequencerOk(q: Sequencer, container: Container, samples: seq<Placement>)
  {
    && q.currentCalibrationPoint <= |CalibrationPoints|
    && q.currentClickCount <= RequiredClicks
    && (container == CalibrationDot ==> q.currentCalibrationPoint < |CalibrationPoints|)
    && (q.currentCalibrationPoint < |CalibrationPoints| ==>
          (q.isClickEnabled <==> q.currentClickCount < RequiredClicks)
          && (q.advancePending <==> q.currentClickCount == RequiredClicks))
    && (q.currentCalibrationPoint == |CalibrationPoints| ==> !q.isClickEnabled && !q.advancePending)
    && |samples| == RequiredClicks * q.currentCalibrationPoint
         + (if q.currentCalibrationPoint < |CalibrationPoints| then q.currentClickCount else 0)
    && (forall j :: 0 <= j < |samples| ==> samples[j] == CalibrationPoints[j / RequiredClicks])
  }

  /*
   * ----- Older dot handler -----
   */

  datatype LegacyDots = LegacyDots(clickCounts: seq<nat>, hidden: seq<bool>, calibrationClicks: nat, containerHidden: bool)

  function SumClicks(s: seq<nat>): nat
  {
    if s == [] then 0 else s[0] + SumClicks(s[1..])
  }

  /** One more click on dot `i` adds one to the total. */
  lemma {:induction false} SumClicksIncrement(s: seq<nat>, i: nat)
    requires i < |s|
    ensures SumClicks(s[i := s[i] + 1]) == SumClicks(s) + 1
  {
    if i > 0 {
      SumClicksIncrement(s[1..], i - 1);
      assert s[i := s[i] + 1][1..] == s[1..][i - 1 := s[i] + 1];
    } else {
      assert s[i := s[i] + 1][1..] == s[1..];
    }
  }

  lemma {:induction false} SumClicksZero(n: nat)
    ensures SumClicks(seq(n, _ => 0)) == 0
  {
    if n > 0 {
      assert seq(n, _ => 0)[1..] == seq(n - 1, _ => 0);
      SumClicksZero(n - 1);
    }
  }

  /**
   * The older handler's counters: the skipped dot is never counted, a dot
   * is hidden exactly when skipped or clicked 5 times, and the total is the
   * sum of the per-dot counts, one logged sample per counted click.
   */
  ghost predicate LegacyOk(dots: seq<Placement>, d: LegacyDots, samples: seq<nat>)
  {
    && |d.clickCounts| == |dots| && |d.hidden| == |dots|
    && (forall i :: 0 <= i < |dots| && IsTopLeft(dots[i]) ==> d.clickCounts[i] == 0)
    && (forall i :: 0 <= i < |dots| ==> (d.hidden[i] <==> IsTopLeft(dots[i]) || d.clickCounts[i] >= RequiredClicks))
    && d.calibrationClicks == SumClicks(d.clickCounts)
    && |samples| == d.calibrationClicks
    && (forall j :: 0 <= j < |samples| ==> samples[j] < |dots| && !IsTopLeft(dots[samples[j]]))
  }

  /**
   * A counted click on dot `i`: its count and the total go up by one, and
   * the dot is hidden once it has 5 clicks.
   */
  function CountClick(d: LegacyDots, i: nat): (r: LegacyDots)
    requires i < |d.clickCounts| && i < |d.hidden|
    ensures r.clickCounts == d.clickCounts[i := d.clickCounts[i] + 1]
    ensures r.hidden == (if r.clickCounts[i] >= RequiredClicks then d.hidden[i := true] else d.hidden)
    ensures r.calibrationClicks == d.calibrationClicks + 1 && r.containerHidden == d.containerHidden
  {
    var counts := d.clickCounts[i := d.clickCounts[i] + 1];
    d.(clickCounts := counts,
       calibrationClicks := d.calibrationClicks + 1,
       hidden := if counts[i] >= RequiredClicks then d.hidden[i := true] else d.hidden)
  }

  /** Counting a click on a dot that is not skipped, and logging its sample, keeps the counters consistent. */
  lemma CountClickKeepsLegacyOk(dots: seq<Placement>, d: LegacyDots, samples: seq<nat>, i: nat)
    requires LegacyOk(dots, d, samples) && i < |dots| && !IsTopLeft(dots[i])
    ensures LegacyOk(dots, CountClick(d, i), samples + [i])
    ensures CountClick(d, i).hidden == d.hidden[i := d.clickCounts[i] + 1 >= RequiredClicks]
  {
    SumClicksIncrement(d.clickCounts, i);
    var r := CountClick(d, i);
    if d.clickCounts[i] + 1 < RequiredClicks {
      assert !d.hidden[i];
      assert d.hidden[i := false] == d.hidden;
    }
    forall j | 0 <= j < |dots|
      ensures r.hidden[j] <==> IsTopLeft(dots[j]) || r.clickCounts[j] >= RequiredClicks
    {
      if j != i {
        assert r.hidden[j] == d.hidden[j] && r.clickCounts[j] == d.clickCounts[j];
      }
    }
  }

  /** Calibration has finished by one of the two routes that start a countdown. */
  /** Hiding the container is not part of the click bookkeeping. */
  lemma LegacyOkHidingContainer(dots: seq<Placement>, d: LegacyDots, samples: seq<nat>)
    requires LegacyOk(dots, d, samples)
    ensures LegacyOk(dots, d.(containerHidden := true), samples)
  {
  }

  predicate CalibrationDone(q: Sequencer, d: LegacyDots)
  {
    q.currentCalibrationPoint == |CalibrationPoints| || d.calibrationClicks >= RequiredClicks * TotalDotsNeeded
  }

  /** Replacing the calibration dot by anything else keeps the sequencer consistent. */
  lemma SequencerOkAwayFromDot(q: Sequencer, c: Container, c': Container, samples: seq<Placement>)
    requires SequencerOk(q, c, samples) && c' != CalibrationDot
    ensures SequencerOk(q, c', samples)
  {
  }

  /** No countdown and no test before calibration is done. */
  predicate GateOk(tracking: bool, calibrating: bool, countdowns: seq<nat>, done: bool)
  {
    && (tracking ==> !calibrating)
    && (countdowns != [] ==> !calibrating)
    && (!calibrating ==> done)
    && (forall k :: 0 <= k < |countdowns| ==> countdowns[k] < CountdownFrom)
  }

  class Tracker {
    /** `Math.sqrt`, `Math.pow(·, 1.5)`, `Math.cos`, `Math.sin`. */
    const math: MathLib
    /** The dots present in the page when the script loads, with the older click handler. */
    const legacyDots: seq<Placement>

    var currentGaze: Gaze
    var pathCenter: Point
    var session: Session
    var fps: FpsCounter
    var isCalibrating: bool
    var container: Container
    var sequencer: Sequencer
    var legacy: LegacyDots
    /** The count each pending one-second countdown timer will show next. */
    var countdowns: seq<nat>

    /** `webgazer.recordScreenPosition` calls made by the sequencer's dots. */
    ghost var calibrationSamples: seq<Placement>
    /** `webgazer.recordScreenPosition` calls made by the older handler, as dot indices. */
    ghost var legacySamples: seq<nat>
    /** The time of the latest event. */
    ghost var clock: real

    ghost predicate Valid()
      reads this
    {
      && SessionOk(math, pathCenter, session, clock)
      && FpsOk(fps, clock)
      && SequencerOk(sequencer, container, calibrationSamples)
      && LegacyOk(legacyDots, legacy, legacySamples)
      && GateOk(session.isTrackingTest, isCalibrating, countdowns, CalibrationDone(sequencer, legacy))
    }

    /**
     * The page after loading: the older handler has hidden the top-left dot
     * and shown the others, the path centre follows the window, the first
     * animation frame (called without a timestamp) has counted one frame,
     * and the first calibration point is on screen.
     */
    constructor (m: MathLib, dots: seq<Placement>, width: real, height: real)
      ensures Valid()
      ensures math == m && legacyDots == dots
      ensures pathCenter == Point(width / 2.0, height / 2.0) && currentGaze == Unset
      ensures session == Session(false, 0.0, [], [], Point(100.0, 200.0), [], None, None)
      ensures fps == FpsCounter(1, 0.0, 0)
      ensures isCalibrating && countdowns == []
      ensures container == CalibrationDot && sequencer == Sequencer(0, 0, true, false)
      ensures legacy.clickCounts == seq(|dots|, _ => 0) && legacy.calibrationClicks == 0 && !legacy.containerHidden
      ensures forall i :: 0 <= i < |dots| ==> (legacy.hidden[i] <==> IsTopLeft(dots[i]))
    {
      math := m;
      legacyDots := dots;
      currentGaze := Unset;
      pathCenter := Point(width / 2.0, height / 2.0);
      session := Session(false, 0.0, [], [], Point(100.0, 200.0), [], None, None);
      fps := FpsCounter(1, 0.0, 0);
      isCalibrating := true;
      container := CalibrationDot;
      sequencer := Sequencer(0, 0, true, false);
      legacy := LegacyDots(seq(|dots|, _ => 0), seq(|dots|, i requires 0 <= i < |dots| => IsTopLeft(dots[i])), 0, false);
      countdowns := [];
      calibrationSamples := [];
      legacySamples := [];
      clock := 0.0;
      new;
      SumClicksZero(|dots|);
    }

    /** The gaze listener: one prediction from the engine. */
    method OnGaze(data: Option<RawSample>)
      requires Valid()
      modifies this`currentGaze
      ensures Valid()
      ensures currentGaze == FilterStep(old(currentGaze), data)
    {
      currentGaze := FilterStep(currentGaze, data);
    }

    /** `calculateAccuracy`: one pass over the trace, skipping records with a falsy eye. */
    method CalculateAccuracy() returns (accuracy: int)
      ensures accuracy == Accuracy(math, session.trackingData)
    {
      var trackingData := session.trackingData;
      if |trackingData| == 0 {
        return 0;
      }
      var totalError := 0.0;
      var validSamples: nat := 0;
      var i := 0;
      while i < |trackingData|
        invariant 0 <= i <= |trackingData|
        invariant totalError == ErrorSumTo(math, trackingData, i)
        invariant validSamples == ScoredCountTo(trackingData, i)
      {
        var data := trackingData[i];
        if data.left.x != 0.0 && data.right.x != 0.0 {
          var avgGazeX := (data.left.x + data.right.x) / 2.0;
          var avgGazeY := (data.left.y + data.right.y) / 2.0;
          var distance := math.sqrt(Square(avgGazeX - data.target.x) + Square(avgGazeY - data.target.y));
          var normalizedError := MinReal(1.0, math.pow15(distance / MaxErrorDistance));
          totalError := totalError + normalizedError;
          validSamples := validSamples + 1;
        }
        i := i + 1;
      }
      if validSamples == 0 {
        return 0;
      }
      var raw := 100.0 * (1.0 - totalError / validSamples as real);
      accuracy := ClampInt(0, 100, Round(raw));
    }

    /** `generateCircularPath`: the path around the current centre, point by point. */
    method GenerateCircularPath() returns (testPath: seq<Point>)
      ensures testPath == CircularPath(math, pathCenter)
    {
      ghost var path := CircularPath(math, pathCenter);
      testPath := [];
      var i := 0;
      while i < PathSteps
        invariant 0 <= i <= PathSteps
        invariant testPath == path[..i]
      {
        // The point at angle i·2π/180 on the circle of radius 200.
        var point := PathPoint(math, pathCenter, i);
        assert path[..i + 1] == path[..i] + [path[i]];
        testPath := testPath + [point];
        i := i + 1;
      }
      assert path[..PathSteps] == path;
    }

    /**
     * `startTrackingTest`: leaves calibration, starts the clock, empties the
     * trace, forgets the gaze, rebuilds the path and puts the target on its
     * first point.
     */
    method StartTrackingTest(now: real)
      requires Valid() && CalibrationDone(sequencer, legacy) && now >= clock
      modifies this`isCalibrating, this`session, this`currentGaze, this`clock
      ensures Valid()
      ensures !isCalibrating && clock == now && currentGaze == Unset
      ensures session == old(session).(isTrackingTest := true, trackingStartTime := now, trackingData := [],
                                       testPath := CircularPath(math, pathCenter), circle := PathPoint(math, pathCenter, 0))
    {
      isCalibrating := false;
      clock := now;
      currentGaze := Unset;
      var path := GenerateCircularPath();
      session := session.(isTrackingTest := true, trackingStartTime := now, trackingData := [], testPath := path);
      session := session.(circle := session.testPath[0]);
    }

    /** The tracking branch of `animate`: one tick of a running test. */
    method TrackingStep(timestamp: real)
      requires session.isTrackingTest && |session.testPath| == PathSteps && session.trackingStartTime <= timestamp
      modifies this`session
      ensures session == TrackingTick(math, old(session), currentGaze, fps.currentFps, timestamp)
    {
      ghost var s0 := session;
      var elapsed := timestamp - session.trackingStartTime;
      var progress := Progress(elapsed);
      ProgressComplete(elapsed);
      if progress >= 1.0 {
        var accuracy := CalculateAccuracy();
        session := session.(isTrackingTest := false, alerts := session.alerts + [accuracy]);
      } else {
        PathIndexInRange(elapsed);
        var target := session.testPath[PathIndex(elapsed)];
        var shown := Some(RemainingSeconds(elapsed));
        if EyesTruthy(currentGaze) {
          var record := RecordOf(currentGaze, target, elapsed);
          var trace := session.trackingData + [record];
          session := session.(circle := target, trackingData := trace);
          var deviation := GazeDistance(math, currentGaze.left, currentGaze.right, target);
          var overall := CalculateAccuracy();
          assert overall == Accuracy(math, trace);
          var stats := LiveStats(Round(deviation), DeviationPercent(math, deviation), overall, fps.currentFps);
          session := session.(liveStats := Some(stats), shownRemaining := shown);
          assert session == s0.(circle := target, trackingData := trace, liveStats := Some(stats), shownRemaining := shown);
        } else {
          session := session.(circle := target, shownRemaining := shown);
        }
      }
    }

    /**
     * One animation frame at `timestamp`: the frame is counted and, while a
     * test runs, the tracking branch updates the session.
     */
    method Animate(timestamp: real)
      requires Valid() && timestamp >= clock
      modifies this`fps, this`session, this`clock
      ensures Valid()
      ensures clock == timestamp && fps == UpdateFps(old(fps), timestamp)
      ensures !old(session.isTrackingTest) ==> session == old(session)
      ensures old(session.isTrackingTest) ==>
        |old(session.testPath)| == PathSteps && old(session.trackingStartTime) <= timestamp
        && session == TrackingTick(math, old(session), currentGaze, fps.currentFps, timestamp)
    {
      UpdateFpsKeepsFpsOk(fps, clock, timestamp);
      fps := UpdateFps(fps, timestamp);
      if session.isTrackingTest {
        TrackingTickKeepsSessionOk(math, pathCenter, session, currentGaze, fps.currentFps, timestamp, clock);
        TrackingStep(timestamp);
      }
      clock := timestamp;
    }

    /**
     * A click on the sequencer's dot. While clicks are enabled it counts,
     * records one sample at the dot, and the fifth click disables clicks and
     * starts the 300 ms advance timer; otherwise it is ignored.
     */
    method CalibrationClick()
      requires Valid() && container == CalibrationDot
      modifies this`sequencer, this`calibrationSamples
      ensures Valid()
      ensures !old(sequencer.isClickEnabled) ==> sequencer == old(sequencer) && calibrationSamples == old(calibrationSamples)
      ensures old(sequencer.isClickEnabled) ==>
        && sequencer.currentCalibrationPoint == old(sequencer.currentCalibrationPoint)
        && sequencer.currentClickCount == old(sequencer.currentClickCount) + 1
        && calibrationSamples == old(calibrationSamples) + [CalibrationPoints[sequencer.currentCalibrationPoint]]
        && (sequencer.isClickEnabled <==> sequencer.currentClickCount < RequiredClicks)
        && (sequencer.advancePending <==> sequencer.currentClickCount == RequiredClicks)
    {
      if !sequencer.isClickEnabled {
        return;
      }
      var count := sequencer.currentClickCount + 1;
      sequencer := sequencer.(currentClickCount := count);
      if count <= RequiredClicks {
        calibrationSamples := calibrationSamples + [CalibrationPoints[sequencer.currentCalibrationPoint]];
        if count == RequiredClicks {
          sequencer := sequencer.(isClickEnabled := false, advancePending := true);
        }
      }
    }

    /** `startCountdown`: leaves calibration, shows 3 and schedules the next number. */
    method StartCountdown()
      modifies this`isCalibrating, this`container, this`countdowns
      ensures !isCalibrating && container == CountdownNumber(CountdownFrom)
      ensures countdowns == old(countdowns) + [CountdownFrom - 1]
    {
      isCalibrating := false;
      container := CountdownNumber(CountdownFrom);
      countdowns := countdowns + [CountdownFrom - 1];
    }

    /**
     * The 300 ms timer after a fifth click: moves to the next point and
     * shows it (`showNextCalibrationPoint`), or after the ninth point clears
     * the last dot and starts the countdown (`completeCalibration`).
     */
    method AdvanceTimer()
      requires Valid() && sequencer.advancePending
      modifies this`sequencer, this`isCalibrating, this`container, this`countdowns
      ensures Valid()
      ensures !sequencer.advancePending
      ensures sequencer.currentCalibrationPoint == old(sequencer.currentCalibrationPoint) + 1
      ensures sequencer.currentCalibrationPoint < |CalibrationPoints| ==>
        && container == CalibrationDot && sequencer.currentClickCount == 0 && sequencer.isClickEnabled
        && countdowns == old(countdowns) && isCalibrating == old(isCalibrating)
      ensures sequencer.currentCalibrationPoint == |CalibrationPoints| ==>
        && !isCalibrating && container == CountdownNumber(CountdownFrom)
        && countdowns == old(countdowns) + [CountdownFrom - 1]
        && sequencer.currentClickCount == old(sequencer.currentClickCount) && !sequencer.isClickEnabled
      ensures |calibrationSamples| == RequiredClicks * sequencer.currentCalibrationPoint
    {
      sequencer := sequencer.(advancePending := false, currentCalibrationPoint := sequencer.currentCalibrationPoint + 1);
      container := Empty;
      if sequencer.currentCalibrationPoint < |CalibrationPoints| {
        sequencer := sequencer.(isClickEnabled := true, currentClickCount := 0);
        container := CalibrationDot;
      } else {
        StartCountdown();
      }
    }

    /**
     * Countdown timer `k` fires at `now`: it shows its number and schedules
     * the next one, or after 0 clears the container and starts the test.
     */
    method CountdownStep(k: nat, now: real)
      requires Valid() && k < |countdowns| && now >= clock
      modifies this`container, this`countdowns, this`isCalibrating, this`session, this`currentGaze, this`clock
      ensures Valid()
      ensures !isCalibrating && clock == now
      ensures old(countdowns[k]) > 0 ==>
        && container == CountdownNumber(old(countdowns[k]))
        && countdowns == old(countdowns)[k := old(countdowns[k]) - 1]
        && session == old(session) && currentGaze == old(currentGaze)
      ensures old(countdowns[k]) == 0 ==>
        && container == Empty
        && countdowns == old(countdowns[..k]) + old(countdowns[k + 1..])
        && currentGaze == Unset
        && session == old(session).(isTrackingTest := true, trackingStartTime := now, trackingData := [],
                                    testPath := CircularPath(math, pathCenter), circle := PathPoint(math, pathCenter, 0))
    {
      var count := countdowns[k];
      container := CountdownNumber(count);
      if count > 0 {
        countdowns := countdowns[k := count - 1];
        clock := now;
      } else {
        container := Empty;
        countdowns := countdowns[..k] + countdowns[k + 1..];
        StartTrackingTest(now);
      }
    }

    /**
     * A click on dot `i` under the older handler: ignored for the skipped
     * top-left dot; otherwise it counts, records a sample, hides the dot at
     * its fifth click and, from the 40th click on, starts a countdown.
     */
    method LegacyDotClick(i: nat)
      requires Valid() && i < |legacyDots|
      modifies this`legacy, this`legacySamples, this`isCalibrating, this`container, this`countdowns
      ensures Valid()
      ensures IsTopLeft(legacyDots[i]) ==>
        && legacy == old(legacy) && legacySamples == old(legacySamples)
        && countdowns == old(countdowns) && isCalibrating == old(isCalibrating) && container == old(container)
      ensures !IsTopLeft(legacyDots[i]) ==>
        && legacy.clickCounts == old(legacy.clickCounts)[i := old(legacy.clickCounts[i]) + 1]
        && legacy.calibrationClicks == old(legacy.calibrationClicks) + 1
        && legacySamples == old(legacySamples) + [i]
        && legacy.hidden == old(legacy.hidden)[i := legacy.clickCounts[i] >= RequiredClicks]
        && (legacy.calibrationClicks >= RequiredClicks * TotalDotsNeeded ==>
              && legacy.containerHidden && !isCalibrating && container == CountdownNumber(CountdownFrom)
              && countdowns == old(countdowns) + [CountdownFrom - 1])
        && (legacy.calibrationClicks < RequiredClicks * TotalDotsNeeded ==>
              && legacy.containerHidden == old(legacy.containerHidden)
              && countdowns == old(countdowns) && isCalibrating == old(isCalibrating) && container == old(container))
    {
      if IsTopLeft(legacyDots[i]) {
        return;
      }
      CountClickKeepsLegacyOk(legacyDots, legacy, legacySamples, i);
      legacy := CountClick(legacy, i);
      legacySamples := legacySamples + [i];
      if legacy.calibrationClicks >= RequiredClicks * TotalDotsNeeded {
        LegacyOkHidingContainer(legacyDots, legacy, legacySamples);
        legacy := legacy.(containerHidden := true);
        SequencerOkAwayFromDot(sequencer, container, CountdownNumber(CountdownFrom), calibrationSamples);
        StartCountdown();
        assert CalibrationDone(sequencer, legacy);
      } else {
        assert CalibrationDone(sequencer, old(legacy)) ==> CalibrationDone(sequencer, legacy);
      }
    }

    /** The debounced resize handler: recentres the path and rebuilds it if a test runs. */
    method Resize(width: real, height: real)
      requires Valid()
      modifies this`pathCenter, this`session
      ensures Valid()
      ensures pathCenter == Point(width / 2.0, height / 2.0)
      ensures old(session.isTrackingTest) ==> session == old(session).(testPath := CircularPath(math, pathCenter))
      ensures !old(session.isTrackingTest) ==> session == old(session)
    {
      pathCenter := Point(width / 2.0, height / 2.0);
      if session.isTrackingTest {
        var path := GenerateCircularPath();
        session := session.(testPath := path);
      }
    }
  }
}
