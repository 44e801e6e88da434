/** `calculateTrackStats`: one forward pass over the points of a recorded
    track that accumulates distance, elevation gain and loss, altitude
    extremes, moving time and maximum speed, closes 1000 m splits, samples
    two chart series, and finally derives the average rates.

    `Walk(c, k)` is the state of the pass after its first `k` segments; the
    method `CalculateTrackStats` updates the same state variable by variable
    and is proved to end in `TrackStatsOf`, about which the properties are
    proved (module TrackStatsProperties). */
module TrackStats {
  import opened Options
  import opened Activities
  import opened Smoothing
  import opened Elevation
  import opened Rates

  /** `[x, y, altitude?, speed?]`: projected position, altitude in metres,
      instantaneous speed in m/s. */
  datatype TrackPoint = TrackPoint(x: real, y: real, altitude: Option<real>, speed: Option<real>)

  datatype Split = Split(number: nat, distance: real, duration: real, elevationGain: real)

  /** A chart series: cumulative kilometres as labels, one value per label. */
  datatype ChartSeries = ChartSeries(labels: seq<real>, data: seq<real>)

  datatype Stats = Stats(
    distance: real, maxAltitude: real, minAltitude: real,
    elevationGain: real, elevationLoss: real,
    duration: real, movingTime: real,
    avgPace: real, avgMovingPace: real,
    maxSpeed: real, avgSpeed: real, avgMovingSpeed: real, vam: real)

  datatype TrackSummary = TrackSummary(
    stats: Stats, elevationChart: ChartSeries, speedChart: ChartSeries, splits: seq<Split>)

  const SmoothingWindow: int := 5
  const MovingSpeedThreshold: real := 0.22
  /** Below or at this speed a segment is given no duration at all. */
  const MinTimedSpeed: real := 0.1
  const SplitLength: real := 1000.0
  /** Fallback split pace when no time is known: 0.9 s/m, i.e. 15 min/km. */
  const FallbackSecondsPerMetre: real := 0.9
  /** A trailing partial split is emitted only beyond this many metres. */
  const MinTrailingSplit: real := 1.0
  const MpsToKmh: real := 3.6

  function Sq(v: real): real { v * v }

  /** `segLen[i]` is the planar length of the segment from point i to point
      i + 1: non-negative, and its square is the squared Euclidean distance. */
  ghost predicate EuclideanLengths(points: seq<TrackPoint>, segLen: seq<real>) {
    && |segLen| == (if |points| == 0 then 0 else |points| - 1)
    && forall i :: 0 <= i < |segLen| ==>
         segLen[i] >= 0.0 &&
         segLen[i] * segLen[i] == Sq(points[i + 1].x - points[i].x) + Sq(points[i + 1].y - points[i].y)
  }

  /** Altitude of each point, 0 where the point has none. */
  function RawAltitudes(points: seq<TrackPoint>): (r: seq<real>)
    ensures |r| == |points|
  {
    seq(|points|, i requires 0 <= i < |points| => points[i].altitude.GetOr(0.0))
  }

  /** Speed recorded at each point, 0 where the point has none. */
  function Speeds(points: seq<TrackPoint>): (r: seq<real>)
    ensures |r| == |points|
  {
    seq(|points|, i requires 0 <= i < |points| => points[i].speed.GetOr(0.0))
  }

  /** Chart sampling stride: `max(1, floor(n / 100))`. */
  function SampleStep(n: nat): nat {
    Max(1, n / 100)
  }

  /** Time to cover a segment at the speed recorded at its end point. */
  function SegmentDuration(length: real, speed: real): real {
    if speed > MinTimedSpeed then length / speed else 0.0
  }

  /** Duration of a split in milliseconds: its moving seconds, or the
      0.9 s/m estimate when they are under one second and no total
      duration was supplied. */
  function SplitDurationMs(movingSeconds: real, distance: real, precalculatedDuration: real): real {
    (if movingSeconds < 1.0 && precalculatedDuration == 0.0
     then distance * FallbackSecondsPerMetre
     else movingSeconds) * 1000.0
  }

  /** Everything the pass reads, per point index. */
  datatype Context = Context(
    segLen: seq<real>, speeds: seq<real>, raw: seq<real>, smoothed: seq<real>,
    precalculatedDuration: real, ceiling: real, step: nat)

  predicate ValidContext(c: Context) {
    && |c.speeds| == |c.segLen| + 1
    && |c.raw| == |c.segLen| + 1
    && |c.smoothed| == |c.segLen| + 1
    && c.step >= 1
  }

  /** The variables the pass updates. `maxAltitude`/`minAltitude` are None
      where the source holds -Infinity/Infinity. */
  datatype Walker = Walker(
    distance: real, gain: real, loss: real,
    maxAltitude: Option<real>, minAltitude: Option<real>,
    maxSpeed: real, movingSeconds: real,
    splitTarget: real, lastSplitDistance: real, lastSplitGain: real, splitSeconds: real,
    splits: seq<Split>, elevationChart: ChartSeries, speedChart: ChartSeries)

  const Start: Walker :=
    Walker(0.0, 0.0, 0.0, None, None, 0.0, 0.0, SplitLength, 0.0, 0.0, 0.0, [], ChartSeries([], []), ChartSeries([], []))

  function Append(chart: ChartSeries, km: real, value: real): ChartSeries {
    ChartSeries(chart.labels + [km], chart.data + [value])
  }

  /** Point `i` is plotted when it is a multiple of the stride or the last point. */
  predicate Sampled(c: Context, i: nat)
    requires c.step >= 1
  {
    i % c.step == 0 || i == |c.segLen|
  }

  /** Seconds a segment adds to the moving time: all of its duration when
      the speed at its end point is above the moving threshold, else none. */
  function MovingDelta(length: real, speed: real): real {
    if speed > MovingSpeedThreshold then SegmentDuration(length, speed) else 0.0
  }

  function NextMaxSpeed(current: real, speed: real, ceiling: real): real {
    if speed > current && speed < ceiling then speed else current
  }

  function NextMax(current: Option<real>, v: real): Option<real> {
    if current.None? || v > current.value then Some(v) else current
  }

  function NextMin(current: Option<real>, v: real): Option<real> {
    if current.None? || v < current.value then Some(v) else current
  }

  /** The accumulators' part of one iteration, for a segment of the given
      length ending at a point with the given speed and raw altitude, over
      which the smoothed altitude changes by `diff`. */
  function Accumulate(w: Walker, length: real, speed: real, altitude: real, diff: real, ceiling: real): Walker {
    w.(distance := w.distance + length,
       gain := w.gain + GainStep(diff), loss := w.loss + LossStep(diff),
       maxAltitude := NextMax(w.maxAltitude, altitude),
       minAltitude := NextMin(w.minAltitude, altitude),
       maxSpeed := NextMaxSpeed(w.maxSpeed, speed, ceiling),
       movingSeconds := w.movingSeconds + MovingDelta(length, speed),
       splitSeconds := w.splitSeconds + MovingDelta(length, speed))
  }

  /** The split that closes at the current distance. */
  function ClosedSplit(w: Walker, precalculatedDuration: real): Split {
    var splitDistance := w.distance - w.lastSplitDistance;
    Split(|w.splits| + 1, splitDistance,
          SplitDurationMs(w.splitSeconds, splitDistance, precalculatedDuration),
          w.gain - w.lastSplitGain)
  }

  /** The split builder's part of one iteration: close a split once the
      distance reaches the target, then move the target on by 1000 m. */
  function SplitPart(w: Walker, precalculatedDuration: real): Walker {
    if w.distance >= w.splitTarget then
      w.(splits := w.splits + [ClosedSplit(w, precalculatedDuration)],
         splitTarget := w.splitTarget + SplitLength, lastSplitDistance := w.distance,
         lastSplitGain := w.gain, splitSeconds := 0.0)
    else w
  }

  /** The chart part of one iteration: plot the point when it is sampled. */
  function ChartPart(w: Walker, sampled: bool, elevation: real, speed: real): Walker {
    if sampled then
      w.(elevationChart := Append(w.elevationChart, w.distance / 1000.0, elevation),
         speedChart := Append(w.speedChart, w.distance / 1000.0, speed * MpsToKmh))
    else w
  }

  /** Change of the smoothed altitude over the segment ending at point i. */
  function Diff(c: Context, i: nat): real
    requires ValidContext(c) && 1 <= i <= |c.segLen|
  {
    c.smoothed[i] - c.smoothed[i - 1]
  }

  /** One iteration of the loop: the segment from point i - 1 to point i. */
  function Visit(c: Context, w: Walker, i: nat): Walker
    requires ValidContext(c) && 1 <= i <= |c.segLen|
  {
    var accumulated := Accumulate(w, c.segLen[i - 1], c.speeds[i], c.raw[i], Diff(c, i), c.ceiling);
    ChartPart(SplitPart(accumulated, c.precalculatedDuration), Sampled(c, i), c.smoothed[i], c.speeds[i])
  }

  /** The state after the first `k` segments. */
  function Walk(c: Context, k: nat): Walker
    requires ValidContext(c) && k <= |c.segLen|
  {
    if k == 0 then Start else Visit(c, Walk(c, k - 1), k)
  }

  /** The splits once the trailing partial split, if any, is added: it is
      emitted when more than 1 m is left after the last boundary. */
  function TrailingSplits(w: Walker, precalculatedDuration: real): seq<Split> {
    var leftover := w.distance - w.lastSplitDistance;
    if leftover > MinTrailingSplit then
      w.splits + [Split(|w.splits| + 1, leftover,
                        SplitDurationMs(w.splitSeconds, leftover, precalculatedDuration),
                        w.gain - w.lastSplitGain)]
    else w.splits
  }

  /** The statistics record derived from the state at the end of the pass. */
  function StatsOf(w: Walker, precalculatedDuration: real): Stats {
    var seconds := precalculatedDuration / 1000.0;
    Stats(
      w.distance,
      w.maxAltitude.GetOr(0.0), w.minAltitude.GetOr(0.0),
      w.gain, w.loss,
      precalculatedDuration, w.movingSeconds * 1000.0,
      AvgPace(w.distance, seconds), AvgPace(w.distance, w.movingSeconds),
      w.maxSpeed * MpsToKmh,
      AvgSpeed(w.distance, seconds), AvgSpeed(w.distance, w.movingSeconds),
      Vam(w.gain, seconds))
  }

  function Finish(w: Walker, precalculatedDuration: real): TrackSummary {
    TrackSummary(StatsOf(w, precalculatedDuration), w.elevationChart, w.speedChart,
                 TrailingSplits(w, precalculatedDuration))
  }

  /** The result for fewer than two points. */
  const EmptySummary: TrackSummary :=
    TrackSummary(Stats(0.0, 0.0, 0.0, 0.0, 0.0, 0.0, 0.0, 0.0, 0.0, 0.0, 0.0, 0.0, 0.0),
                 ChartSeries([], []), ChartSeries([], []), [])

  function ContextOf(points: seq<TrackPoint>, segLen: seq<real>, precalculatedDuration: real, activityType: string): (c: Context)
    requires |points| >= 2 && |segLen| == |points| - 1
    ensures ValidContext(c)
  {
    Context(segLen, Speeds(points), RawAltitudes(points),
            Smoothed(RawAltitudes(points), SmoothingWindow),
            precalculatedDuration, MaxSpeedCeiling(activityType), SampleStep(|points|))
  }

  /** What `calculateTrackStats(points, precalculatedDuration, activityType)` returns. */
  function TrackStatsOf(points: seq<TrackPoint>, segLen: seq<real>, precalculatedDuration: real, activityType: string): TrackSummary
    requires EuclideanLengths(points, segLen)
  {
    if |points| < 2 then EmptySummary
    else
      var c := ContextOf(points, segLen, precalculatedDuration, activityType);
      Finish(Walk(c, |segLen|), precalculatedDuration)
  }

  /** The accumulating statements of the loop body. */
  method AddSegment(w: Walker, segmentDistance: real, speedAtPoint: real, altitude: real, diff: real, ceiling: real)
    returns (next: Walker)
    ensures next == Accumulate(w, segmentDistance, speedAtPoint, altitude, diff, ceiling)
  {
    var segmentDuration := 0.0;
    if speedAtPoint > MinTimedSpeed {
      segmentDuration := segmentDistance / speedAtPoint;
    }
    var movingSeconds, splitSeconds := w.movingSeconds, w.splitSeconds;
    if speedAtPoint > MovingSpeedThreshold {
      movingSeconds := movingSeconds + segmentDuration;
      splitSeconds := splitSeconds + segmentDuration;
    }
    var maxSpeed := w.maxSpeed;
    if speedAtPoint > maxSpeed && speedAtPoint < ceiling {
      maxSpeed := speedAtPoint;
    }
    var maxAltitude, minAltitude := w.maxAltitude, w.minAltitude;
    if maxAltitude.None? || altitude > maxAltitude.value {
      maxAltitude := Some(altitude);
    }
    if minAltitude.None? || altitude < minAltitude.value {
      minAltitude := Some(altitude);
    }
    var gain, loss := w.gain, w.loss;
    if diff > DeadBand {
      gain := gain + diff;
    } else if diff < -DeadBand {
      loss := loss + -diff;
    }
    next := w.(distance := w.distance + segmentDistance, gain := gain, loss := loss,
               maxAltitude := maxAltitude, minAltitude := minAltitude, maxSpeed := maxSpeed,
               movingSeconds := movingSeconds, splitSeconds := splitSeconds);
  }

  /** The split statements of the loop body, and (with `closing` set to the
      leftover test) the trailing split after it. */
  method CloseSplitIfDue(w: Walker, precalculatedDuration: real) returns (next: Walker)
    ensures next == SplitPart(w, precalculatedDuration)
  {
    next := w;
    if w.distance >= w.splitTarget {
      var splitDistance := w.distance - w.lastSplitDistance;
      var finalSplitDurationSeconds := w.splitSeconds;
      if finalSplitDurationSeconds < 1.0 && precalculatedDuration == 0.0 {
        finalSplitDurationSeconds := splitDistance * FallbackSecondsPerMetre;
      }
      next := next.(splits := w.splits + [Split(|w.splits| + 1, splitDistance, finalSplitDurationSeconds * 1000.0,
                                                w.gain - w.lastSplitGain)]);
      next := next.(splitTarget := w.splitTarget + SplitLength, lastSplitDistance := w.distance,
                    lastSplitGain := w.gain, splitSeconds := 0.0);
    }
  }

  /** The trailing partial split statements after the loop. */
  method AddTrailingSplit(w: Walker, precalculatedDuration: real) returns (splits: seq<Split>)
    ensures splits == TrailingSplits(w, precalculatedDuration)
  {
    splits := w.splits;
    var finalSplitDistance := w.distance - w.lastSplitDistance;
    if finalSplitDistance > MinTrailingSplit {
      var finalSplitDurationSeconds := w.splitSeconds;
      if finalSplitDurationSeconds < 1.0 && precalculatedDuration == 0.0 {
        finalSplitDurationSeconds := finalSplitDistance * FallbackSecondsPerMetre;
      }
      splits := splits + [Split(|splits| + 1, finalSplitDistance, finalSplitDurationSeconds * 1000.0,
                                w.gain - w.lastSplitGain)];
    }
  }

  /** One iteration of the main loop: the segment ending at point `i`. */
  method VisitPoint(ghost c: Context, w: Walker, i: nat, segmentDistance: real, speedAtPoint: real,
                    altitude: real, smoothedAltitude: real, diff: real, ceiling: real,
                    precalculatedDuration: real, sampled: bool)
    returns (next: Walker)
    requires ValidContext(c) && 1 <= i <= |c.segLen|
    requires segmentDistance == c.segLen[i - 1] && speedAtPoint == c.speeds[i] && altitude == c.raw[i]
    requires smoothedAltitude == c.smoothed[i] && diff == Diff(c, i) && ceiling == c.ceiling
    requires precalculatedDuration == c.precalculatedDuration && sampled == Sampled(c, i)
    ensures next == Visit(c, w, i)
  {
    next := AddSegment(w, segmentDistance, speedAtPoint, altitude, diff, ceiling);
    next := CloseSplitIfDue(next, precalculatedDuration);
    if sampled {
      var distanceKmLabel := next.distance / 1000.0;
      next := next.(elevationChart := Append(next.elevationChart, distanceKmLabel, smoothedAltitude),
                    speedChart := Append(next.speedChart, distanceKmLabel, speedAtPoint * MpsToKmh));
    }
  }

  /** The main loop over points 1 .. n-1. */
  method WalkPoints(ghost c: Context, points: seq<TrackPoint>, segLen: seq<real>, rawAltitudes: seq<real>,
                    smoothedAltitudes: seq<real>, ceiling: real, step: nat, precalculatedDuration: real)
    returns (w: Walker)
    requires ValidContext(c) && |points| == |segLen| + 1
    requires c.segLen == segLen && c.speeds == Speeds(points) && c.raw == rawAltitudes
    requires c.smoothed == smoothedAltitudes && c.ceiling == ceiling && c.step == step
    requires c.precalculatedDuration == precalculatedDuration
    ensures w == Walk(c, |segLen|)
  {
    var n := |points|;
    w := Start;
    for i := 1 to n
      invariant w == Walk(c, i - 1)
    {
      var speedAtPoint := points[i].speed.GetOr(0.0);
      w := VisitPoint(c, w, i, segLen[i - 1], speedAtPoint, rawAltitudes[i],
                      smoothedAltitudes[i], smoothedAltitudes[i] - smoothedAltitudes[i - 1],
                      ceiling, precalculatedDuration, i % step == 0 || i == n - 1);
    }
  }

  method CalculateTrackStats(points: seq<TrackPoint>, segLen: seq<real>, precalculatedDuration: real, activityType: string)
    returns (r: TrackSummary)
    requires EuclideanLengths(points, segLen)
    ensures |points| < 2 ==> r == EmptySummary
    ensures r == TrackStatsOf(points, segLen, precalculatedDuration, activityType)
  {
    if |points| < 2 {
      return EmptySummary;
    }
    var n := |points|;
    var ceiling := MaxSpeedCeiling(activityType);
    var rawAltitudes := RawAltitudes(points);
    var smoothedAltitudes := SmoothAltitudes(rawAltitudes, SmoothingWindow);
    var step := Max(1, n / 100);

    ghost var c := ContextOf(points, segLen, precalculatedDuration, activityType);
    var w := WalkPoints(c, points, segLen, rawAltitudes, smoothedAltitudes, ceiling, step, precalculatedDuration);
    var splits := AddTrailingSplit(w, precalculatedDuration);
    r := TrackSummary(StatsOf(w, precalculatedDuration), w.elevationChart, w.speedChart, splits);
  }
}
