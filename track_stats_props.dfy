/** What the pass of `calculateTrackStats` guarantees, proved about the
    specification `Walk` / `TrackStatsOf` that the method is proved to
    compute. */
module TrackStatsProperties {
  import opened Options
  import opened Activities
  import opened Smoothing
  import opened Elevation
  import opened Rates
  import opened TrackStats

  /** Every segment length is non-negative (true of planar lengths). */
  predicate NonNegativeLengths(c: Context) {
    forall i :: 0 <= i < |c.segLen| ==> c.segLen[i] >= 0.0
  }

  // ---------------------------------------------------------------
  // Totals
  // ---------------------------------------------------------------

  /** Distance is the sum of the segment lengths walked so far; gain and
      loss are the dead-banded climbs of the smoothed profile up to the
      current point. */
  lemma {:induction false} WalkTotals(c: Context, k: nat)
    requires ValidContext(c) && k <= |c.segLen|
    ensures Walk(c, k).distance == SumReal(c.segLen[..k])
    ensures Walk(c, k).gain == ElevGain(c.smoothed[..k + 1])
    ensures Walk(c, k).loss == ElevLoss(c.smoothed[..k + 1])
  {
    if k > 0 {
      WalkTotals(c, k - 1);
      assert c.segLen[..k][..k - 1] == c.segLen[..k - 1];
      assert c.smoothed[..k + 1][..k] == c.smoothed[..k];
    }
  }

  lemma {:induction false} SumNonNegative(s: seq<real>)
    requires forall i :: 0 <= i < |s| ==> s[i] >= 0.0
    ensures SumReal(s) >= 0.0
  {
    if s != [] {
      SumNonNegative(s[..|s| - 1]);
    }
  }

  /** The distance never decreases along the pass. */
  lemma {:induction false} DistanceMonotone(c: Context, j: nat, k: nat)
    requires ValidContext(c) && NonNegativeLengths(c) && j <= k <= |c.segLen|
    ensures 0.0 <= Walk(c, j).distance <= Walk(c, k).distance
  {
    if j < k {
      DistanceMonotone(c, j, k - 1);
    } else if k > 0 {
      DistanceMonotone(c, 0, k - 1);
    }
  }

  // ---------------------------------------------------------------
  // Moving time
  // ---------------------------------------------------------------

  /** Reference definition: the moving seconds of segments 1 .. k. */
  function MovingSum(c: Context, k: nat): real
    requires ValidContext(c) && k <= |c.segLen|
  {
    if k == 0 then 0.0 else MovingSum(c, k - 1) + MovingDelta(c.segLen[k - 1], c.speeds[k])
  }

  /** A segment's moving time is never more than its length covered at
      the moving threshold. */
  lemma MovingDeltaBounds(length: real, speed: real)
    requires length >= 0.0
    ensures 0.0 <= MovingDelta(length, speed) <= length / MovingSpeedThreshold
  {
    if speed > MovingSpeedThreshold {
      var d := length / speed;
      assert d * speed == length;
      assert d * MovingSpeedThreshold <= d * speed;
    }
  }

  lemma {:induction false} WalkMoving(c: Context, k: nat)
    requires ValidContext(c) && NonNegativeLengths(c) && k <= |c.segLen|
    ensures Walk(c, k).movingSeconds == MovingSum(c, k)
    ensures 0.0 <= Walk(c, k).movingSeconds <= Walk(c, k).distance / MovingSpeedThreshold
  {
    if k > 0 {
      WalkMoving(c, k - 1);
      MovingDeltaBounds(c.segLen[k - 1], c.speeds[k]);
    }
  }

  // ---------------------------------------------------------------
  // Maximum speed
  // ---------------------------------------------------------------

  /** The maximum speed is the largest recorded speed at points 1 .. k
      that is below the activity's ceiling, or 0 when there is none above 0. */
  lemma {:induction false} WalkMaxSpeed(c: Context, k: nat)
    requires ValidContext(c) && k <= |c.segLen|
    ensures Walk(c, k).maxSpeed >= 0.0
    ensures forall i :: 1 <= i <= k && c.speeds[i] < c.ceiling ==> c.speeds[i] <= Walk(c, k).maxSpeed
    ensures Walk(c, k).maxSpeed == 0.0 ||
            (Walk(c, k).maxSpeed < c.ceiling &&
             exists i :: 1 <= i <= k && c.speeds[i] == Walk(c, k).maxSpeed)
  {
    if k > 0 {
      WalkMaxSpeed(c, k - 1);
      var m := Walk(c, k - 1).maxSpeed;
      if c.speeds[k] > m && c.speeds[k] < c.ceiling {
        assert Walk(c, k).maxSpeed == c.speeds[k];
      } else {
        assert Walk(c, k).maxSpeed == m;
        if m != 0.0 {
          var i :| 1 <= i <= k - 1 && c.speeds[i] == m;
          assert 1 <= i <= k && c.speeds[i] == Walk(c, k).maxSpeed;
        }
      }
    }
  }

  // ---------------------------------------------------------------
  // Altitude extremes
  // ---------------------------------------------------------------

  lemma MaxAltitudeStep(c: Context, k: nat)
    requires ValidContext(c) && 1 <= k <= |c.segLen|
    ensures Walk(c, k).maxAltitude == NextMax(Walk(c, k - 1).maxAltitude, c.raw[k])
    ensures Walk(c, k).minAltitude == NextMin(Walk(c, k - 1).minAltitude, c.raw[k])
  {
  }

  /** The highest altitude covers the raw altitudes of points 1 .. k and is
      one of them; point 0 never takes part. Before the first segment it is
      unset. */
  lemma {:induction false} WalkMaxAltitude(c: Context, k: nat)
    requires ValidContext(c) && k <= |c.segLen|
    ensures Walk(c, k).maxAltitude.None? <==> k == 0
    ensures k > 0 ==> forall i :: 1 <= i <= k ==> c.raw[i] <= Walk(c, k).maxAltitude.value
    ensures k > 0 ==> exists i :: 1 <= i <= k && c.raw[i] == Walk(c, k).maxAltitude.value
  {
    if k > 0 {
      WalkMaxAltitude(c, k - 1);
      MaxAltitudeStep(c, k);
      var m := Walk(c, k).maxAltitude;
      if k > 1 && c.raw[k] <= Walk(c, k - 1).maxAltitude.value {
        var i :| 1 <= i <= k - 1 && c.raw[i] == Walk(c, k - 1).maxAltitude.value;
        assert c.raw[i] == m.value;
      } else {
        assert c.raw[k] == m.value;
      }
    }
  }

  /** The mirror image for the lowest altitude. */
  lemma {:induction false} WalkMinAltitude(c: Context, k: nat)
    requires ValidContext(c) && k <= |c.segLen|
    ensures Walk(c, k).minAltitude.None? <==> k == 0
    ensures k > 0 ==> forall i :: 1 <= i <= k ==> Walk(c, k).minAltitude.value <= c.raw[i]
    ensures k > 0 ==> exists i :: 1 <= i <= k && c.raw[i] == Walk(c, k).minAltitude.value
  {
    if k > 0 {
      WalkMinAltitude(c, k - 1);
      MaxAltitudeStep(c, k);
      var m := Walk(c, k).minAltitude;
      if k > 1 && c.raw[k] >= Walk(c, k - 1).minAltitude.value {
        var i :| 1 <= i <= k - 1 && c.raw[i] == Walk(c, k - 1).minAltitude.value;
        assert c.raw[i] == m.value;
      } else {
        assert c.raw[k] == m.value;
      }
    }
  }

  // ---------------------------------------------------------------
  // Splits
  // ---------------------------------------------------------------

  function SumDistance(splits: seq<Split>): real {
    if splits == [] then 0.0 else SumDistance(splits[..|splits| - 1]) + splits[|splits| - 1].distance
  }

  function SumGain(splits: seq<Split>): real {
    if splits == [] then 0.0 else SumGain(splits[..|splits| - 1]) + splits[|splits| - 1].elevationGain
  }

  function SumDuration(splits: seq<Split>): real {
    if splits == [] then 0.0 else SumDuration(splits[..|splits| - 1]) + splits[|splits| - 1].duration
  }

  /** A split's duration: with a known total duration its moving time,
      otherwise its moving time when that is at least a second, else the
      0.9 s/m estimate. */
  predicate DurationRule(s: Split, precalculatedDuration: real) {
    && s.duration >= 0.0
    && (precalculatedDuration == 0.0 ==>
          s.duration >= 1000.0 || s.duration == s.distance * FallbackSecondsPerMetre * 1000.0)
  }

  /** One split in a sequence: numbered from 1, non-negative distance and
      climb, duration by the rule. */
  predicate GoodSplit(splits: seq<Split>, j: int, precalculatedDuration: real)
    requires 0 <= j < |splits|
  {
    && splits[j].number == j + 1
    && splits[j].distance >= 0.0
    && splits[j].elevationGain >= 0.0
    && DurationRule(splits[j], precalculatedDuration)
  }

  /** The first j + 1 splits together reach the (j + 1)-th kilometre. */
  predicate EndsPastBoundary(splits: seq<Split>, j: int)
    requires 0 <= j < |splits|
  {
    SumDistance(splits[..j + 1]) >= SplitLength * ((j + 1) as real)
  }

  /** What the split builder keeps true between iterations. */
  predicate SplitInvariant(w: Walker, precalculatedDuration: real) {
    && w.splitTarget == SplitLength * ((|w.splits| + 1) as real)
    && w.lastSplitDistance == SumDistance(w.splits)
    && w.lastSplitGain == SumGain(w.splits)
    && w.splitTarget - SplitLength <= w.lastSplitDistance <= w.distance
    && w.lastSplitGain <= w.gain
    && 0.0 <= w.splitSeconds
    && (precalculatedDuration != 0.0 ==>
          SumDuration(w.splits) + w.splitSeconds * 1000.0 == w.movingSeconds * 1000.0)
    && (forall j :: 0 <= j < |w.splits| ==> GoodSplit(w.splits, j, precalculatedDuration))
    && (forall j :: 0 <= j < |w.splits| ==> EndsPastBoundary(w.splits, j))
  }

  lemma SplitInvariantStart(precalculatedDuration: real)
    ensures SplitInvariant(Start, precalculatedDuration)
  {
  }

  lemma AppendSplit(splits: seq<Split>, x: Split)
    ensures SumDistance(splits + [x]) == SumDistance(splits) + x.distance
    ensures SumGain(splits + [x]) == SumGain(splits) + x.elevationGain
    ensures SumDuration(splits + [x]) == SumDuration(splits) + x.duration
  {
    assert (splits + [x])[..|splits|] == splits;
  }

  lemma SplitDurationRule(seconds: real, distance: real, precalculatedDuration: real)
    requires seconds >= 0.0 && distance >= 0.0
    ensures DurationRule(Split(1, distance, SplitDurationMs(seconds, distance, precalculatedDuration), 0.0),
                         precalculatedDuration)
  {
  }

  lemma AccumulateKeepsSplits(w: Walker, length: real, speed: real, altitude: real, diff: real,
                              ceiling: real, precalculatedDuration: real)
    requires SplitInvariant(w, precalculatedDuration) && length >= 0.0
    ensures SplitInvariant(Accumulate(w, length, speed, altitude, diff, ceiling), precalculatedDuration)
  {
    StepRules(diff);
    MovingDeltaBounds(length, speed);
  }

  lemma SplitPartKeepsSplits(w: Walker, precalculatedDuration: real)
    requires SplitInvariant(w, precalculatedDuration)
    ensures SplitInvariant(SplitPart(w, precalculatedDuration), precalculatedDuration)
  {
    if w.distance >= w.splitTarget {
      var x := ClosedSplit(w, precalculatedDuration);
      var next := SplitPart(w, precalculatedDuration);
      AppendSplit(w.splits, x);
      SplitDurationRule(w.splitSeconds, x.distance, precalculatedDuration);
      assert DurationRule(x, precalculatedDuration);
      forall j | 0 <= j < |next.splits|
        ensures GoodSplit(next.splits, j, precalculatedDuration)
        ensures EndsPastBoundary(next.splits, j)
      {
        if j < |w.splits| {
          assert next.splits[..j + 1] == w.splits[..j + 1];
          assert GoodSplit(w.splits, j, precalculatedDuration);
          assert EndsPastBoundary(w.splits, j);
        } else {
          assert next.splits[..j + 1] == next.splits;
        }
      }
    }
  }

  lemma {:induction false} WalkSplits(c: Context, k: nat)
    requires ValidContext(c) && NonNegativeLengths(c) && k <= |c.segLen|
    ensures SplitInvariant(Walk(c, k), c.precalculatedDuration)
  {
    if k > 0 {
      WalkSplits(c, k - 1);
      var w := Walk(c, k - 1);
      var accumulated := Accumulate(w, c.segLen[k - 1], c.speeds[k], c.raw[k], Diff(c, k), c.ceiling);
      AccumulateKeepsSplits(w, c.segLen[k - 1], c.speeds[k], c.raw[k], Diff(c, k), c.ceiling, c.precalculatedDuration);
      SplitPartKeepsSplits(accumulated, c.precalculatedDuration);
    }
  }

  /** After the split step the open split is always shorter than a
      kilometre: either one just closed, or the target is still ahead. */
  lemma SplitPartLeavesShortRemainder(w: Walker, precalculatedDuration: real)
    requires SplitInvariant(w, precalculatedDuration)
    ensures SplitPart(w, precalculatedDuration).distance - SplitPart(w, precalculatedDuration).lastSplitDistance < SplitLength
  {
  }

  lemma {:induction false} WalkShortRemainder(c: Context, k: nat)
    requires ValidContext(c) && NonNegativeLengths(c) && k <= |c.segLen|
    ensures 0.0 <= Walk(c, k).distance - Walk(c, k).lastSplitDistance < SplitLength
  {
    WalkSplits(c, k);
    if k > 0 {
      WalkSplits(c, k - 1);
      var w := Walk(c, k - 1);
      var accumulated := Accumulate(w, c.segLen[k - 1], c.speeds[k], c.raw[k], Diff(c, k), c.ceiling);
      AccumulateKeepsSplits(w, c.segLen[k - 1], c.speeds[k], c.raw[k], Diff(c, k), c.ceiling, c.precalculatedDuration);
      SplitPartLeavesShortRemainder(accumulated, c.precalculatedDuration);
    }
  }

  /** Split `s` covers the segments from point `start` to point `stop`: its
      distance and climb are what the pass added in between, and its
      duration is the moving time added in between, in milliseconds (or
      the 0.9 s/m estimate when that is under a second and no duration was
      recorded). */
  predicate Covers(c: Context, s: Split, start: nat, stop: nat)
    requires ValidContext(c) && start <= stop <= |c.segLen|
  {
    var a, b := Walk(c, start), Walk(c, stop);
    && s.distance == b.distance - a.distance
    && s.elevationGain == b.gain - a.gain
    && s.duration == SplitDurationMs(b.movingSeconds - a.movingSeconds, s.distance, c.precalculatedDuration)
  }

  /** The splits tile the pass from point 0: split j covers the segments
      from point marks[j] to point marks[j + 1]. */
  predicate Tiles(c: Context, splits: seq<Split>, marks: seq<nat>)
    requires ValidContext(c)
  {
    && |marks| == |splits| + 1
    && marks[0] == 0
    && (forall j :: 0 <= j < |marks| ==> marks[j] <= |c.segLen|)
    && (forall j :: 0 <= j < |splits| ==> marks[j] < marks[j + 1] && Covers(c, splits[j], marks[j], marks[j + 1]))
  }

  /** The points after which the pass closed a split, preceded by point 0. */
  function Marks(c: Context, k: nat): seq<nat>
    requires ValidContext(c) && k <= |c.segLen|
  {
    if k == 0 then [0]
    else Marks(c, k - 1) + (if |Walk(c, k).splits| > |Walk(c, k - 1).splits| then [k] else [])
  }

  lemma TilesExtend(c: Context, splits: seq<Split>, marks: seq<nat>, s: Split, stop: nat)
    requires ValidContext(c) && Tiles(c, splits, marks)
    requires marks[|marks| - 1] < stop <= |c.segLen| && Covers(c, s, marks[|marks| - 1], stop)
    ensures Tiles(c, splits + [s], marks + [stop])
  {
    var splits', marks' := splits + [s], marks + [stop];
    forall j | 0 <= j < |splits'|
      ensures marks'[j] < marks'[j + 1] && Covers(c, splits'[j], marks'[j], marks'[j + 1])
    {
      if j < |splits| {
        assert splits'[j] == splits[j] && marks'[j] == marks[j] && marks'[j + 1] == marks[j + 1];
      } else {
        assert splits'[j] == s && marks'[j] == marks[|marks| - 1] && marks'[j + 1] == stop;
      }
    }
  }

  /** What segment k does to the split builder: the open split grows by
      the segment, and is closed at point k once the target is reached. */
  lemma SplitStep(c: Context, k: nat)
    requires ValidContext(c) && 1 <= k <= |c.segLen|
    ensures var w, next := Walk(c, k - 1), Walk(c, k);
            var moved := MovingDelta(c.segLen[k - 1], c.speeds[k]);
      && next.distance == w.distance + c.segLen[k - 1]
      && next.movingSeconds == w.movingSeconds + moved
      && next.gain == w.gain + GainStep(Diff(c, k))
      && (if next.distance >= w.splitTarget then
            && next.splits == w.splits + [Split(|w.splits| + 1, next.distance - w.lastSplitDistance,
                                                SplitDurationMs(w.splitSeconds + moved, next.distance - w.lastSplitDistance,
                                                                c.precalculatedDuration),
                                                next.gain - w.lastSplitGain)]
            && next.lastSplitDistance == next.distance && next.lastSplitGain == next.gain
            && next.splitSeconds == 0.0
          else
            && next.splits == w.splits
            && next.lastSplitDistance == w.lastSplitDistance && next.lastSplitGain == w.lastSplitGain
            && next.splitSeconds == w.splitSeconds + moved)
  {
  }

  /** After k segments the closed splits tile the pass up to the last
      boundary point, and the open split starts at that point: its distance,
      climb and moving seconds are counted from the state there. */
  predicate TiledAt(c: Context, k: nat)
    requires ValidContext(c) && k <= |c.segLen|
  {
    var w, m := Walk(c, k), Marks(c, k);
    && Tiles(c, w.splits, m)
    && m[|m| - 1] <= k
    && w.lastSplitDistance == Walk(c, m[|m| - 1]).distance
    && w.lastSplitGain == Walk(c, m[|m| - 1]).gain
    && w.splitSeconds == w.movingSeconds - Walk(c, m[|m| - 1]).movingSeconds
  }

  lemma TiledAfterClose(c: Context, k: nat)
    requires ValidContext(c) && 1 <= k <= |c.segLen| && TiledAt(c, k - 1)
    requires Walk(c, k).distance >= Walk(c, k - 1).splitTarget
    ensures TiledAt(c, k)
  {
    SplitStep(c, k);
    var w, m, next := Walk(c, k - 1), Marks(c, k - 1), Walk(c, k);
    var x := next.splits[|next.splits| - 1];
    assert next.splits == w.splits + [x];
    assert Marks(c, k) == m + [k];
    assert Covers(c, x, m[|m| - 1], k);
    TilesExtend(c, w.splits, m, x, k);
  }

  lemma TiledAfterOpen(c: Context, k: nat)
    requires ValidContext(c) && 1 <= k <= |c.segLen| && TiledAt(c, k - 1)
    requires Walk(c, k).distance < Walk(c, k - 1).splitTarget
    ensures TiledAt(c, k)
  {
    SplitStep(c, k);
    assert Marks(c, k) == Marks(c, k - 1);
  }

  lemma {:induction false} WalkTiles(c: Context, k: nat)
    requires ValidContext(c) && k <= |c.segLen|
    ensures TiledAt(c, k)
  {
    if k > 0 {
      WalkTiles(c, k - 1);
      if Walk(c, k).distance >= Walk(c, k - 1).splitTarget {
        TiledAfterClose(c, k);
      } else {
        TiledAfterOpen(c, k);
      }
    }
  }

  /** The split sums telescope: they are the distance and climb at the
      last boundary point, and with a recorded duration the durations add
      up to the moving time there. */
  lemma {:induction false} TilesSums(c: Context, splits: seq<Split>, marks: seq<nat>)
    requires ValidContext(c) && Tiles(c, splits, marks)
    ensures SumDistance(splits) == Walk(c, marks[|splits|]).distance
    ensures SumGain(splits) == Walk(c, marks[|splits|]).gain
    ensures c.precalculatedDuration != 0.0 ==>
              SumDuration(splits) == Walk(c, marks[|splits|]).movingSeconds * 1000.0
  {
    var n := |splits|;
    if n == 0 {
      assert Walk(c, 0) == Start;
    } else {
      TilesPrefix(c, splits, marks);
      TilesSums(c, splits[..n - 1], marks[..n]);
      assert Covers(c, splits[n - 1], marks[n - 1], marks[n]);
    }
  }

  /** Dropping the last split keeps a tiling. */
  lemma TilesPrefix(c: Context, splits: seq<Split>, marks: seq<nat>)
    requires ValidContext(c) && Tiles(c, splits, marks) && |splits| > 0
    ensures Tiles(c, splits[..|splits| - 1], marks[..|splits|])
  {
    var n := |splits|;
    var init, marks' := splits[..n - 1], marks[..n];
    forall j | 0 <= j < n - 1
      ensures marks'[j] < marks'[j + 1] && Covers(c, init[j], marks'[j], marks'[j + 1])
    {
      assert init[j] == splits[j] && marks'[j] == marks[j] && marks'[j + 1] == marks[j + 1];
    }
  }

  /** The splits returned: the closed ones plus the trailing partial split
      when more than 1 m is left. They are numbered from 1, each closed one
      ends past its kilometre, the trailing one is under a kilometre, their
      distances add up to the total but for at most 1 m, and with a known
      total duration their durations add up to at most the moving time. */
  lemma TrailingSplitsProperties(w: Walker, precalculatedDuration: real)
    requires SplitInvariant(w, precalculatedDuration)
    requires w.distance - w.lastSplitDistance < SplitLength
    ensures var t := TrailingSplits(w, precalculatedDuration);
      && |w.splits| <= |t| <= |w.splits| + 1
      && t[..|w.splits|] == w.splits
      && SplitLength * (|w.splits| as real) <= w.distance
      && (forall j :: 0 <= j < |t| ==> GoodSplit(t, j, precalculatedDuration))
      && (forall j :: 0 <= j < |w.splits| ==> EndsPastBoundary(t, j))
      && (|t| > |w.splits| ==> MinTrailingSplit < t[|t| - 1].distance < SplitLength)
      && 0.0 <= w.distance - SumDistance(t) <= MinTrailingSplit
      && (|t| > |w.splits| ==> SumDistance(t) == w.distance && SumGain(t) == w.gain)
      && (precalculatedDuration != 0.0 ==> SumDuration(t) <= w.movingSeconds * 1000.0)
  {
    var t := TrailingSplits(w, precalculatedDuration);
    if |t| > |w.splits| {
      var x := t[|t| - 1];
      assert t == w.splits + [x];
      AppendSplit(w.splits, x);
      SplitDurationRule(w.splitSeconds, x.distance, precalculatedDuration);
      assert DurationRule(x, precalculatedDuration);
      forall j | 0 <= j < |t|
        ensures GoodSplit(t, j, precalculatedDuration)
      {
        if j < |w.splits| {
          assert GoodSplit(w.splits, j, precalculatedDuration);
        }
      }
      forall j | 0 <= j < |w.splits|
        ensures EndsPastBoundary(t, j)
      {
        assert t[..j + 1] == w.splits[..j + 1];
        assert EndsPastBoundary(w.splits, j);
      }
    } else {
      assert t[..|w.splits|] == w.splits;
    }
  }

  // ---------------------------------------------------------------
  // Charts
  // ---------------------------------------------------------------

  predicate NonDecreasing(s: seq<real>) {
    forall a, b :: 0 <= a < b < |s| ==> s[a] <= s[b]
  }

  /** The two series share their labels, every label has one value, and
      the labels are kilometres travelled: in order and never past the
      current distance. */
  predicate ChartInvariant(w: Walker) {
    && |w.elevationChart.labels| == |w.elevationChart.data|
    && |w.speedChart.labels| == |w.speedChart.data|
    && w.elevationChart.labels == w.speedChart.labels
    && NonDecreasing(w.elevationChart.labels)
    && (forall j :: 0 <= j < |w.elevationChart.labels| ==> w.elevationChart.labels[j] <= w.distance / 1000.0)
  }

  lemma {:induction false} WalkCharts(c: Context, k: nat)
    requires ValidContext(c) && NonNegativeLengths(c) && k <= |c.segLen|
    ensures ChartInvariant(Walk(c, k))
    ensures |Walk(c, k).elevationChart.labels| <= k
    ensures k > 0 && Sampled(c, k) ==>
              |Walk(c, k).elevationChart.labels| > 0 &&
              Walk(c, k).elevationChart.labels[|Walk(c, k).elevationChart.labels| - 1] == Walk(c, k).distance / 1000.0
  {
    if k > 0 {
      WalkCharts(c, k - 1);
      var w := Walk(c, k - 1);
      var split := SplitPart(Accumulate(w, c.segLen[k - 1], c.speeds[k], c.raw[k], Diff(c, k), c.ceiling), c.precalculatedDuration);
      assert split.elevationChart == w.elevationChart && split.speedChart == w.speedChart;
      assert split.distance == w.distance + c.segLen[k - 1];
      assert ChartInvariant(split);
    }
  }

  /** The charts after segment k: the point is appended when sampled. */
  lemma ChartStep(c: Context, k: nat)
    requires ValidContext(c) && 1 <= k <= |c.segLen|
    ensures var w := Walk(c, k - 1);
            var km := Walk(c, k).distance / 1000.0;
            && Walk(c, k).elevationChart ==
                 (if Sampled(c, k) then Append(w.elevationChart, km, c.smoothed[k]) else w.elevationChart)
            && Walk(c, k).speedChart ==
                 (if Sampled(c, k) then Append(w.speedChart, km, c.speeds[k] * MpsToKmh) else w.speedChart)
  {
  }

  /** Reference list of the plotted points among 1 .. k, in order: the
      multiples of the stride and the last point. */
  function SampledIndices(c: Context, k: nat): seq<nat>
    requires c.step >= 1
  {
    if k == 0 then []
    else SampledIndices(c, k - 1) + (if Sampled(c, k) then [k] else [])
  }

  lemma {:induction false} SampledIndicesOrder(c: Context, k: nat)
    requires c.step >= 1
    ensures var ix := SampledIndices(c, k);
      && (forall j :: 0 <= j < |ix| ==> 1 <= ix[j] <= k && Sampled(c, ix[j]))
      && (forall i, j :: 0 <= i < j < |ix| ==> ix[i] < ix[j])
      && (forall i :: 1 <= i <= k && Sampled(c, i) ==> i in ix)
  {
    if k > 0 {
      SampledIndicesOrder(c, k - 1);
    }
  }

  lemma {:induction false} MulStep(s: int, x: int, y: int)
    requires s > 0 && x < y
    ensures s * x + s <= s * y
    decreases y - x
  {
    assert s * (y - 1) + s == s * y;
    if x < y - 1 {
      MulStep(s, x, y - 1);
    }
  }

  /** Euclidean division is determined by quotient and remainder. */
  lemma DivUnique(a: int, s: int, q: int, r: int)
    requires s > 0 && a == s * q + r && 0 <= r < s
    ensures a / s == q
  {
    var q' := a / s;
    var r' := a % s;
    assert a == s * q' + r' && 0 <= r' < s;
    if q' < q {
      MulStep(s, q', q);
      assert false;
    } else if q < q' {
      MulStep(s, q, q');
      assert false;
    }
  }

  /** Between consecutive counts the quotient by s steps up exactly at
      the multiples of s. */
  lemma DivStep(k: nat, s: nat)
    requires k >= 1 && s >= 1
    ensures k / s == (k - 1) / s + (if k % s == 0 then 1 else 0)
  {
    var q, r := (k - 1) / s, (k - 1) % s;
    assert k - 1 == s * q + r && 0 <= r < s;
    if r == s - 1 {
      assert k == s * (q + 1) + 0;
      DivUnique(k, s, q + 1, 0);
    } else {
      DivUnique(k, s, q, r + 1);
      assert k % s == r + 1;
    }
  }
  /** The number of plotted points: one per multiple of the stride, plus
      the last point when it is not one. */
  lemma {:induction false} SampledCount(c: Context, k: nat)
    requires c.step >= 1 && k <= |c.segLen|
    ensures |SampledIndices(c, k)| == k / c.step + (if k == |c.segLen| && k % c.step != 0 then 1 else 0)
  {
    if k > 0 {
      SampledCount(c, k - 1);
      DivStep(k, c.step);
    }
  }

  /** Chart entry j is the j-th plotted point: its label is the distance
      there in km, its values are that point's smoothed altitude and its
      recorded speed in km/h. */
  predicate ChartsPlot(c: Context, elevation: ChartSeries, speed: ChartSeries, ix: seq<nat>)
    requires ValidContext(c)
  {
    && |elevation.labels| == |ix| == |elevation.data| == |speed.data|
    && speed.labels == elevation.labels
    && forall j :: 0 <= j < |ix| ==>
         && 1 <= ix[j] <= |c.segLen|
         && elevation.labels[j] == Walk(c, ix[j]).distance / 1000.0
         && elevation.data[j] == c.smoothed[ix[j]]
         && speed.data[j] == c.speeds[ix[j]] * MpsToKmh
  }

  lemma {:induction false} WalkChartPoints(c: Context, k: nat)
    requires ValidContext(c) && k <= |c.segLen|
    ensures ChartsPlot(c, Walk(c, k).elevationChart, Walk(c, k).speedChart, SampledIndices(c, k))
  {
    if k > 0 {
      WalkChartPoints(c, k - 1);
      ChartStep(c, k);
      var before, after := Walk(c, k - 1), Walk(c, k);
      var ix := SampledIndices(c, k - 1);
      if Sampled(c, k) {
        var ix' := ix + [k];
        assert SampledIndices(c, k) == ix';
        forall j | 0 <= j < |ix'|
          ensures && 1 <= ix'[j] <= |c.segLen|
                  && after.elevationChart.labels[j] == Walk(c, ix'[j]).distance / 1000.0
                  && after.elevationChart.data[j] == c.smoothed[ix'[j]]
                  && after.speedChart.data[j] == c.speeds[ix'[j]] * MpsToKmh
        {
          if j < |ix| {
            assert ix'[j] == ix[j];
            assert after.elevationChart.labels[j] == before.elevationChart.labels[j];
            assert after.elevationChart.data[j] == before.elevationChart.data[j];
            assert after.speedChart.data[j] == before.speedChart.data[j];
          }
        }
      } else {
        assert SampledIndices(c, k) == ix;
      }
    }
  }

  // ---------------------------------------------------------------
  // The whole track
  // ---------------------------------------------------------------

  lemma ContextLengths(points: seq<TrackPoint>, segLen: seq<real>, precalculatedDuration: real, activityType: string)
    requires EuclideanLengths(points, segLen) && |points| >= 2
    ensures NonNegativeLengths(ContextOf(points, segLen, precalculatedDuration, activityType))
  {
  }

  /** Totals of a track: distance is the sum of the segment lengths, gain
      and loss are the dead-banded climbs of the whole smoothed profile,
      and the moving time is at most the distance covered at the moving
      threshold. */
  lemma TrackTotals(points: seq<TrackPoint>, segLen: seq<real>, precalculatedDuration: real, activityType: string)
    requires EuclideanLengths(points, segLen) && |points| >= 2
    ensures var r := TrackStatsOf(points, segLen, precalculatedDuration, activityType).stats;
      && r.distance == SumReal(segLen)
      && r.distance >= 0.0
      && r.elevationGain == ElevGain(Smoothed(RawAltitudes(points), SmoothingWindow))
      && r.elevationLoss == ElevLoss(Smoothed(RawAltitudes(points), SmoothingWindow))
      && r.elevationGain >= 0.0 && r.elevationLoss >= 0.0
      && r.duration == precalculatedDuration
      && 0.0 <= r.movingTime <= r.distance / MovingSpeedThreshold * 1000.0
  {
    var c := ContextOf(points, segLen, precalculatedDuration, activityType);
    var k := |segLen|;
    ContextLengths(points, segLen, precalculatedDuration, activityType);
    WalkTotals(c, k);
    WalkMoving(c, k);
    DistanceMonotone(c, 0, k);
    assert c.segLen[..k] == segLen;
    assert c.smoothed[..k + 1] == c.smoothed;
    GainLossMonotone(c.smoothed, |c.smoothed|);
    assert c.smoothed[..|c.smoothed|] == c.smoothed;
  }

  /** The reported maximum speed (km/h) is 3.6 times the largest speed
      recorded at points 1 .. n-1 below the activity's ceiling, or 0. */
  lemma TrackMaxSpeed(points: seq<TrackPoint>, segLen: seq<real>, precalculatedDuration: real, activityType: string)
    requires EuclideanLengths(points, segLen) && |points| >= 2
    ensures var r := TrackStatsOf(points, segLen, precalculatedDuration, activityType).stats;
            var speeds := Speeds(points);
      && r.maxSpeed >= 0.0
      && (forall i :: 1 <= i < |points| && speeds[i] < MaxSpeedCeiling(activityType) ==>
            speeds[i] * MpsToKmh <= r.maxSpeed)
      && (r.maxSpeed == 0.0 ||
          exists i :: 1 <= i < |points| && speeds[i] < MaxSpeedCeiling(activityType) && speeds[i] * MpsToKmh == r.maxSpeed)
  {
    var c := ContextOf(points, segLen, precalculatedDuration, activityType);
    WalkMaxSpeed(c, |segLen|);
    var m := Walk(c, |segLen|).maxSpeed;
    if m != 0.0 {
      var i :| 1 <= i <= |segLen| && c.speeds[i] == m;
      assert c.speeds[i] * MpsToKmh == m * MpsToKmh;
    }
  }

  /** The reported extremes are the highest and lowest raw altitude among
      points 1 .. n-1 (a missing altitude counting as 0); the first point's
      altitude is not looked at. */
  lemma TrackAltitudes(points: seq<TrackPoint>, segLen: seq<real>, precalculatedDuration: real, activityType: string)
    requires EuclideanLengths(points, segLen) && |points| >= 2
    ensures var r := TrackStatsOf(points, segLen, precalculatedDuration, activityType).stats;
            var raw := RawAltitudes(points);
      && (forall i :: 1 <= i < |points| ==> r.minAltitude <= raw[i] <= r.maxAltitude)
      && (exists i :: 1 <= i < |points| && raw[i] == r.maxAltitude)
      && (exists i :: 1 <= i < |points| && raw[i] == r.minAltitude)
  {
    var c := ContextOf(points, segLen, precalculatedDuration, activityType);
    WalkMaxAltitude(c, |segLen|);
    WalkMinAltitude(c, |segLen|);
  }

  /** The split list of a track. */
  lemma TrackSplits(points: seq<TrackPoint>, segLen: seq<real>, precalculatedDuration: real, activityType: string)
    requires EuclideanLengths(points, segLen) && |points| >= 2
    ensures var r := TrackStatsOf(points, segLen, precalculatedDuration, activityType);
            var splits := r.splits;
      && (forall j :: 0 <= j < |splits| ==> GoodSplit(splits, j, precalculatedDuration))
      && 0.0 <= r.stats.distance - SumDistance(splits) <= MinTrailingSplit
      && SumGain(splits) <= r.stats.elevationGain
      && (precalculatedDuration != 0.0 ==> SumDuration(splits) <= r.stats.movingTime)
      && (forall j :: 0 <= j < |splits| - 1 ==> EndsPastBoundary(splits, j))
      && (|splits| > 0 ==> splits[|splits| - 1].distance < SplitLength || EndsPastBoundary(splits, |splits| - 1))
      && SplitLength * ((|splits| - 1) as real) <= r.stats.distance
  {
    var c := ContextOf(points, segLen, precalculatedDuration, activityType);
    var k := |segLen|;
    ContextLengths(points, segLen, precalculatedDuration, activityType);
    var w := Walk(c, k);
    WalkSplits(c, k);
    WalkShortRemainder(c, k);
    TrailingSplitsProperties(w, precalculatedDuration);
    var t := TrailingSplits(w, precalculatedDuration);
    if |t| == |w.splits| {
      assert t == w.splits;
    }
  }

  /** The finished split list tiles the whole pass, up to the last point
      or to less than 1 m before the end. */
  predicate TilesToEnd(c: Context, splits: seq<Split>, marks: seq<nat>)
    requires ValidContext(c)
  {
    var n := |c.segLen|;
    && Tiles(c, splits, marks)
    && SumDistance(splits) == Walk(c, marks[|splits|]).distance
    && SumGain(splits) == Walk(c, marks[|splits|]).gain
    && (marks[|splits|] == n || Walk(c, n).distance - SumDistance(splits) <= MinTrailingSplit)
  }

  /** With the trailing split emitted, the splits reach the last point. */
  lemma TrailingSplitTiles(c: Context)
    requires ValidContext(c) && TiledAt(c, |c.segLen|)
    requires Walk(c, |c.segLen|).distance - Walk(c, |c.segLen|).lastSplitDistance > MinTrailingSplit
    ensures TilesToEnd(c, TrailingSplits(Walk(c, |c.segLen|), c.precalculatedDuration), Marks(c, |c.segLen|) + [|c.segLen|])
  {
    var n := |c.segLen|;
    var w, m := Walk(c, n), Marks(c, n);
    var t := TrailingSplits(w, c.precalculatedDuration);
    var x := t[|t| - 1];
    assert t == w.splits + [x];
    assert Covers(c, x, m[|m| - 1], n);
    TilesExtend(c, w.splits, m, x, n);
    TilesSums(c, t, m + [n]);
  }

  /** Without it, they reach a point less than 1 m before the end. */
  lemma NoTrailingSplitTiles(c: Context)
    requires ValidContext(c) && TiledAt(c, |c.segLen|)
    requires Walk(c, |c.segLen|).distance - Walk(c, |c.segLen|).lastSplitDistance <= MinTrailingSplit
    ensures TilesToEnd(c, TrailingSplits(Walk(c, |c.segLen|), c.precalculatedDuration), Marks(c, |c.segLen|))
  {
    var w := Walk(c, |c.segLen|);
    assert TrailingSplits(w, c.precalculatedDuration) == w.splits;
    TilesSums(c, w.splits, Marks(c, |c.segLen|));
  }

  lemma FinishTiles(c: Context)
    requires ValidContext(c)
    ensures exists marks :: TilesToEnd(c, TrailingSplits(Walk(c, |c.segLen|), c.precalculatedDuration), marks)
  {
    var n := |c.segLen|;
    WalkTiles(c, n);
    var w := Walk(c, n);
    if w.distance - w.lastSplitDistance > MinTrailingSplit {
      TrailingSplitTiles(c);
    } else {
      NoTrailingSplitTiles(c);
    }
  }

  /** The returned splits tile the track from its first point: split j
      covers the segments between two points, its distance and climb are
      what the pass added between them and its duration is the moving time
      added between them (or the 0.9 s/m estimate). The sums of distance
      and climb are the state at the last boundary point, which is either
      the last point of the track or less than 1 m before its end. */
  lemma TrackSplitTiles(points: seq<TrackPoint>, segLen: seq<real>, precalculatedDuration: real, activityType: string)
    requires EuclideanLengths(points, segLen) && |points| >= 2
    ensures var c := ContextOf(points, segLen, precalculatedDuration, activityType);
      exists marks :: TilesToEnd(c, TrackStatsOf(points, segLen, precalculatedDuration, activityType).splits, marks)
  {
    var c := ContextOf(points, segLen, precalculatedDuration, activityType);
    FinishTiles(c);
    assert TrackStatsOf(points, segLen, precalculatedDuration, activityType).splits ==
           TrailingSplits(Walk(c, |c.segLen|), c.precalculatedDuration);
  }

  /** The two chart series of a track: one entry per plotted point (the
      multiples of the stride and the last point, in order), entry j giving
      the distance in km at the j-th plotted point, its smoothed altitude
      and its recorded speed in km/h. */
  lemma TrackCharts(points: seq<TrackPoint>, segLen: seq<real>, precalculatedDuration: real, activityType: string)
    requires EuclideanLengths(points, segLen) && |points| >= 2
    ensures var r := TrackStatsOf(points, segLen, precalculatedDuration, activityType);
            var c := ContextOf(points, segLen, precalculatedDuration, activityType);
            var ix := SampledIndices(c, |segLen|);
            var labels := r.elevationChart.labels;
      && ChartsPlot(c, r.elevationChart, r.speedChart, ix)
      && |ix| == |segLen| / c.step + (if |segLen| % c.step != 0 then 1 else 0)
      && (forall i :: 1 <= i <= |segLen| && Sampled(c, i) <==> i in ix)
      && (forall i, j :: 0 <= i < j < |ix| ==> ix[i] < ix[j])
      && 1 <= |labels|
      && NonDecreasing(labels)
      && labels[|labels| - 1] == r.stats.distance / 1000.0
  {
    var c := ContextOf(points, segLen, precalculatedDuration, activityType);
    ContextLengths(points, segLen, precalculatedDuration, activityType);
    WalkCharts(c, |segLen|);
    WalkChartPoints(c, |segLen|);
    SampledIndicesOrder(c, |segLen|);
    SampledCount(c, |segLen|);
  }

  /** The derived rates agree with distance, gain and the two durations:
      speed times time is distance, pace is its reciprocal. */
  predicate RatesAgree(r: Stats) {
    var seconds := r.duration / 1000.0;
    var movingSeconds := r.movingTime / 1000.0;
    && (seconds > 0.0 ==> r.avgSpeed * seconds == r.distance * 3.6 && r.vam * seconds == r.elevationGain * 3600.0)
    && (seconds <= 0.0 ==> r.avgSpeed == 0.0 && r.avgPace == 0.0 && r.vam == 0.0)
    && (movingSeconds > 0.0 ==> r.avgMovingSpeed * movingSeconds == r.distance * 3.6)
    && (movingSeconds <= 0.0 ==> r.avgMovingSpeed == 0.0 && r.avgMovingPace == 0.0)
    && (r.distance > 0.0 && seconds > 0.0 ==> r.avgSpeed * r.avgPace == 60.0)
    && (r.distance > 0.0 && movingSeconds > 0.0 ==> r.avgMovingSpeed * r.avgMovingPace == 60.0)
  }

  lemma StatsRates(w: Walker, precalculatedDuration: real)
    ensures RatesAgree(StatsOf(w, precalculatedDuration))
  {
    var seconds := precalculatedDuration / 1000.0;
    var r := StatsOf(w, precalculatedDuration);
    assert r.movingTime / 1000.0 == w.movingSeconds;
    assert r.duration / 1000.0 == seconds;
    if w.distance > 0.0 && seconds > 0.0 {
      SpeedTimesPace(w.distance, seconds);
    }
    if w.distance > 0.0 && w.movingSeconds > 0.0 {
      SpeedTimesPace(w.distance, w.movingSeconds);
    }
  }

  lemma TrackRates(points: seq<TrackPoint>, segLen: seq<real>, precalculatedDuration: real, activityType: string)
    requires EuclideanLengths(points, segLen)
    ensures RatesAgree(TrackStatsOf(points, segLen, precalculatedDuration, activityType).stats)
  {
    if |points| >= 2 {
      var c := ContextOf(points, segLen, precalculatedDuration, activityType);
      StatsRates(Walk(c, |segLen|), precalculatedDuration);
    }
  }

  /** A track whose altitudes are all the same has no gain and no loss, and
      both extremes are that altitude. */
  lemma FlatTrack(points: seq<TrackPoint>, segLen: seq<real>, precalculatedDuration: real, activityType: string, h: real)
    requires EuclideanLengths(points, segLen) && |points| >= 2
    requires forall i :: 0 <= i < |points| ==> points[i].altitude.GetOr(0.0) == h
    ensures var r := TrackStatsOf(points, segLen, precalculatedDuration, activityType).stats;
      r.elevationGain == 0.0 && r.elevationLoss == 0.0 && r.maxAltitude == h && r.minAltitude == h
  {
    var raw := RawAltitudes(points);
    SmoothedConstant(raw, SmoothingWindow, h);
    FlatHasNoClimb(Smoothed(raw, SmoothingWindow), h);
    TrackTotals(points, segLen, precalculatedDuration, activityType);
    TrackAltitudes(points, segLen, precalculatedDuration, activityType);
  }

  /** Gain minus loss is the net change of the smoothed profile, up to the
      dead-band once per segment. */
  lemma TrackNetClimb(points: seq<TrackPoint>, segLen: seq<real>, precalculatedDuration: real, activityType: string)
    requires EuclideanLengths(points, segLen) && |points| >= 2
    ensures var r := TrackStatsOf(points, segLen, precalculatedDuration, activityType).stats;
            var sm := Smoothed(RawAltitudes(points), SmoothingWindow);
            var drift := (sm[|sm| - 1] - sm[0]) - (r.elevationGain - r.elevationLoss);
      -DeadBand * (|segLen| as real) <= drift <= DeadBand * (|segLen| as real)
  {
    TrackTotals(points, segLen, precalculatedDuration, activityType);
    NetClimbBound(Smoothed(RawAltitudes(points), SmoothingWindow));
  }

  // ---------------------------------------------------------------
  // Walking a track backwards
  // ---------------------------------------------------------------

  lemma ReversedLengths(points: seq<TrackPoint>, segLen: seq<real>)
    requires EuclideanLengths(points, segLen) && |points| >= 2
    ensures EuclideanLengths(Reverse(points), Reverse(segLen))
  {
    var n := |points|;
    forall i | 0 <= i < |segLen|
      ensures Reverse(segLen)[i] >= 0.0
      ensures Reverse(segLen)[i] * Reverse(segLen)[i] ==
              Sq(Reverse(points)[i + 1].x - Reverse(points)[i].x) + Sq(Reverse(points)[i + 1].y - Reverse(points)[i].y)
    {
      var j := n - 2 - i;
      assert Reverse(segLen)[i] == segLen[j];
      assert Reverse(points)[i + 1] == points[j] && Reverse(points)[i] == points[j + 1];
      var a, b := points[j + 1], points[j];
      assert Sq(b.x - a.x) == Sq(a.x - b.x);
      assert Sq(b.y - a.y) == Sq(a.y - b.y);
    }
  }

  /** The same track walked backwards covers the same distance, and its gain
      and loss trade places (the smoothing window is symmetric). */
  lemma ReversedTrack(points: seq<TrackPoint>, segLen: seq<real>, precalculatedDuration: real, activityType: string)
    requires EuclideanLengths(points, segLen) && |points| >= 2
    ensures EuclideanLengths(Reverse(points), Reverse(segLen))
    ensures var forward := TrackStatsOf(points, segLen, precalculatedDuration, activityType).stats;
            var backward := TrackStatsOf(Reverse(points), Reverse(segLen), precalculatedDuration, activityType).stats;
      && backward.distance == forward.distance
      && backward.elevationGain == forward.elevationLoss
      && backward.elevationLoss == forward.elevationGain
  {
    ReversedLengths(points, segLen);
    var raw := RawAltitudes(points);
    assert RawAltitudes(Reverse(points)) == Reverse(raw);
    SmoothedReverse(raw, SmoothingWindow);
    ReverseSwapsGainAndLoss(Smoothed(raw, SmoothingWindow));
    SumReverse(segLen);
    TrackTotals(points, segLen, precalculatedDuration, activityType);
    TrackTotals(Reverse(points), Reverse(segLen), precalculatedDuration, activityType);
  }

  // ---------------------------------------------------------------
  // A worked example
  // ---------------------------------------------------------------

  /** Three points on a line at 0, 500 and 1100 m, altitudes 100, 105 and
      95 m, speeds none, 2 and 2 m/s, no known duration, trekking. The
      split target of 1000 m is passed only on the second segment, so one
      split of 1100 m closes there and no trailing split remains. */
  const ExamplePoints: seq<TrackPoint> := [
    TrackPoint(0.0, 0.0, Some(100.0), None),
    TrackPoint(500.0, 0.0, Some(105.0), Some(2.0)),
    TrackPoint(1100.0, 0.0, Some(95.0), Some(2.0))]

  const ExampleLengths: seq<real> := [500.0, 600.0]

  lemma ExampleSmoothing()
    ensures Smoothed(RawAltitudes(ExamplePoints), SmoothingWindow) == [100.0, 100.0, 100.0]
  {
    var raw := RawAltitudes(ExamplePoints);
    assert raw == [100.0, 105.0, 95.0];
    assert raw[0..3] == raw;
    assert SumReal([100.0]) == 100.0 by { assert [100.0][..0] == []; }
    assert SumReal([100.0, 105.0]) == 205.0 by { assert [100.0, 105.0][..1] == [100.0]; }
    assert SumReal(raw) == 300.0 by { assert raw[..2] == [100.0, 105.0]; }
    var sm := Smoothed(raw, SmoothingWindow);
    forall i | 0 <= i < 3
      ensures sm[i] == 100.0
    {
      assert WindowStart(i, SmoothingWindow) == 0 && WindowEnd(i, SmoothingWindow, 3) == 3;
    }
  }

  const ExampleContext: Context :=
    Context(ExampleLengths, [0.0, 2.0, 2.0], [100.0, 105.0, 95.0], [100.0, 100.0, 100.0], 0.0, 5.5, 1)

  lemma ExampleContextOf()
    ensures ContextOf(ExamplePoints, ExampleLengths, 0.0, "trekking") == ExampleContext
  {
    ExampleSmoothing();
    assert Speeds(ExamplePoints) == [0.0, 2.0, 2.0];
    assert RawAltitudes(ExamplePoints) == [100.0, 105.0, 95.0];
  }

  /** After the first segment: 500 m, 250 s moving, no split yet. */
  lemma ExampleFirstSegment()
    ensures Walk(ExampleContext, 1) ==
      Walker(500.0, 0.0, 0.0, Some(105.0), Some(105.0), 2.0, 250.0, 1000.0, 0.0, 0.0, 250.0, [],
             ChartSeries([0.5], [100.0]), ChartSeries([0.5], [7.2]))
  {
    var c := ExampleContext;
    assert Walk(c, 0) == Start;
    assert Diff(c, 1) == 0.0;
    assert MovingDelta(500.0, 2.0) == 250.0;
  }

  /** After the second segment the 1000 m target is passed at 1100 m. */
  lemma ExampleSecondSegment()
    ensures Walk(ExampleContext, 2) ==
      Walker(1100.0, 0.0, 0.0, Some(105.0), Some(95.0), 2.0, 550.0, 2000.0, 1100.0, 0.0, 0.0,
             [Split(1, 1100.0, 550000.0, 0.0)],
             ChartSeries([0.5, 1.1], [100.0, 100.0]), ChartSeries([0.5, 1.1], [7.2, 7.2]))
  {
    var c := ExampleContext;
    ExampleFirstSegment();
    var w1 := Walk(c, 1);
    assert Diff(c, 2) == 0.0;
    assert Sampled(c, 2);
    assert Walk(c, 2) == ChartPart(SplitPart(Accumulate(w1, 600.0, 2.0, 95.0, 0.0, 5.5), 0.0), true, 100.0, 2.0);
    assert MovingDelta(600.0, 2.0) == 300.0;
    var accumulated := Accumulate(w1, 600.0, 2.0, 95.0, 0.0, 5.5);
    assert accumulated ==
      Walker(1100.0, 0.0, 0.0, Some(105.0), Some(95.0), 2.0, 550.0, 1000.0, 0.0, 0.0, 550.0, [],
             ChartSeries([0.5], [100.0]), ChartSeries([0.5], [7.2]));
    assert SplitDurationMs(550.0, 1100.0, 0.0) == 550000.0;
    var split := SplitPart(accumulated, 0.0);
    assert split ==
      Walker(1100.0, 0.0, 0.0, Some(105.0), Some(95.0), 2.0, 550.0, 2000.0, 1100.0, 0.0, 0.0,
             [Split(1, 1100.0, 550000.0, 0.0)],
             ChartSeries([0.5], [100.0]), ChartSeries([0.5], [7.2]));
  }

  /** The complete result for the example. */
  const ExampleSummary: TrackSummary :=
    TrackSummary(
      Stats(1100.0, 105.0, 95.0, 0.0, 0.0, 0.0, 550000.0, 0.0, 25.0 / 3.0, 7.2, 0.0, 7.2, 0.0),
      ChartSeries([0.5, 1.1], [100.0, 100.0]), ChartSeries([0.5, 1.1], [7.2, 7.2]),
      [Split(1, 1100.0, 550000.0, 0.0)])

  lemma ExampleLengthsAreEuclidean()
    ensures EuclideanLengths(ExamplePoints, ExampleLengths)
  {
    assert Sq(500.0 - 0.0) == 500.0 * 500.0;
    assert Sq(1100.0 - 500.0) == 600.0 * 600.0;
  }

  lemma ExampleFinish()
    ensures Finish(Walk(ExampleContext, 2), 0.0) == ExampleSummary
  {
    ExampleSecondSegment();
    assert AvgSpeed(1100.0, 550.0) == 7.2;
    assert AvgPace(1100.0, 550.0) == 25.0 / 3.0;
  }

  lemma ExampleTrack()
    ensures EuclideanLengths(ExamplePoints, ExampleLengths)
    ensures TrackStatsOf(ExamplePoints, ExampleLengths, 0.0, "trekking") == ExampleSummary
  {
    ExampleLengthsAreEuclidean();
    ExampleContextOf();
    ExampleFinish();
  }
}
