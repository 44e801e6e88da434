/** What the dashboard pass guarantees, proved about `Fold`/`DashboardOf`. */
module DashboardProperties {
  import opened Options
  import opened Activities
  import opened Calendar
  import opened Records
  import opened Dashboard

  predicate AllValid(tracks: seq<TrackRecord>) {
    forall i :: 0 <= i < |tracks| ==> ValidDates(tracks[i])
  }

  /** The three summed figures of a document, missing counted as 0. */
  datatype Figure = DistanceFigure | ClimbFigure | DurationFigure

  function FigureOf(t: TrackRecord, f: Figure): real {
    match f
    case DistanceFigure => OrZero(t.distance)
    case ClimbFigure => OrZero(t.elevationGain)
    case DurationFigure => OrZero(t.duration)
  }

  function TotalOf(s: DashboardStats, f: Figure): real {
    match f
    case DistanceFigure => s.totalDistance
    case ClimbFigure => s.totalElevationGain
    case DurationFigure => s.totalDuration
  }

  function BestOf(s: DashboardStats, f: Figure): Best {
    match f
    case DistanceFigure => s.longestTrack
    case ClimbFigure => s.highestElevationTrack
    case DurationFigure => s.longestDurationTrack
  }

  /** Reference sum, taken from the front of the list. */
  function Sum(tracks: seq<TrackRecord>, f: Figure): real {
    if tracks == [] then 0.0 else FigureOf(tracks[0], f) + Sum(tracks[1..], f)
  }

  lemma {:induction false} SumSnoc(tracks: seq<TrackRecord>, t: TrackRecord, f: Figure)
    ensures Sum(tracks + [t], f) == Sum(tracks, f) + FigureOf(t, f)
  {
    if tracks != [] {
      assert (tracks + [t])[1..] == tracks[1..] + [t];
      SumSnoc(tracks[1..], t, f);
    }
  }

  lemma StepFigures(s: DashboardStats, t: TrackRecord, f: Figure)
    requires ValidDates(t)
    ensures TotalOf(Step(s, t), f) == TotalOf(s, f) + FigureOf(t, f)
    ensures BestOf(Step(s, t), f) == Improve(BestOf(s, f), t.name, FigureOf(t, f))
  {
  }

  /** The totals are the sums of the documents' figures. */
  lemma {:induction false} DashboardTotals(tracks: seq<TrackRecord>, f: Figure)
    requires AllValid(tracks)
    ensures TotalOf(DashboardOf(tracks), f) == Sum(tracks, f)
  {
    FoldTotals(tracks, f);
  }

  lemma {:induction false} FoldTotals(tracks: seq<TrackRecord>, f: Figure)
    requires AllValid(tracks)
    ensures TotalOf(Fold(tracks), f) == Sum(tracks, f)
  {
    if tracks != [] {
      var init := tracks[..|tracks| - 1];
      FoldTotals(init, f);
      StepFigures(Fold(init), tracks[|tracks| - 1], f);
      SumSnoc(init, tracks[|tracks| - 1], f);
      assert init + [tracks[|tracks| - 1]] == tracks;
    }
  }

  /** A record: either none was set (the placeholder with 0), or it is the
      first document holding the largest positive figure. */
  predicate IsRecord(tracks: seq<TrackRecord>, f: Figure, b: Best) {
    && (forall i :: 0 <= i < |tracks| ==> FigureOf(tracks[i], f) <= b.value)
    && (b == NoBest ||
        (b.value > 0.0 &&
         exists i :: 0 <= i < |tracks| && b == Best(tracks[i].name, FigureOf(tracks[i], f)) &&
           forall j :: 0 <= j < i ==> FigureOf(tracks[j], f) < b.value))
  }

  /** One more document keeps the record a record. */
  lemma ImproveKeepsRecord(tracks: seq<TrackRecord>, t: TrackRecord, f: Figure, b: Best)
    requires b.value >= 0.0 && IsRecord(tracks, f, b)
    ensures Improve(b, t.name, FigureOf(t, f)).value >= 0.0
    ensures IsRecord(tracks + [t], f, Improve(b, t.name, FigureOf(t, f)))
  {
    var all := tracks + [t];
    var n := |all|;
    assert forall i :: 0 <= i < n - 1 ==> all[i] == tracks[i];
    assert all[n - 1] == t;
    if FigureOf(t, f) <= b.value && b != NoBest {
      var i :| 0 <= i < |tracks| && b == Best(tracks[i].name, FigureOf(tracks[i], f)) &&
               forall j :: 0 <= j < i ==> FigureOf(tracks[j], f) < b.value;
      assert all[i] == tracks[i];
    }
  }

  lemma {:induction false} FoldRecords(tracks: seq<TrackRecord>, f: Figure)
    requires AllValid(tracks)
    ensures BestOf(Fold(tracks), f).value >= 0.0
    ensures IsRecord(tracks, f, BestOf(Fold(tracks), f))
  {
    if tracks != [] {
      var init, t := tracks[..|tracks| - 1], tracks[|tracks| - 1];
      FoldRecords(init, f);
      StepFigures(Fold(init), t, f);
      ImproveKeepsRecord(init, t, f, BestOf(Fold(init), f));
      assert init + [t] == tracks;
    }
  }

  /** The longest, highest and longest-lasting track records. */
  lemma DashboardRecords(tracks: seq<TrackRecord>, f: Figure)
    requires AllValid(tracks)
    ensures BestOf(DashboardOf(tracks), f).value >= 0.0
    ensures IsRecord(tracks, f, BestOf(DashboardOf(tracks), f))
  {
    FoldRecords(tracks, f);
  }

  // ---------------------------------------------------------------
  // Activity-type counts
  // ---------------------------------------------------------------

  /** Reference count: documents whose (defaulted) type is `a`. */
  function CountOf(tracks: seq<TrackRecord>, a: string): nat {
    if tracks == [] then 0
    else CountOf(tracks[..|tracks| - 1], a) + (if ActivityTypeOf(tracks[|tracks| - 1]) == a then 1 else 0)
  }

  /** Each type seen has its number of documents; no other key appears. */
  lemma {:induction false} FoldTypeCounts(tracks: seq<TrackRecord>)
    requires AllValid(tracks)
    ensures forall a :: a in Fold(tracks).activityTypes <==> CountOf(tracks, a) > 0
    ensures forall a :: a in Fold(tracks).activityTypes ==> Fold(tracks).activityTypes[a] == CountOf(tracks, a)
  {
    if tracks != [] {
      FoldTypeCounts(tracks[..|tracks| - 1]);
    }
  }

  lemma DashboardTypeCounts(tracks: seq<TrackRecord>)
    requires AllValid(tracks)
    ensures forall a :: a in DashboardOf(tracks).activityTypes <==> CountOf(tracks, a) > 0
    ensures forall a :: a in DashboardOf(tracks).activityTypes ==> DashboardOf(tracks).activityTypes[a] == CountOf(tracks, a)
  {
    FoldTypeCounts(tracks);
  }

  // ---------------------------------------------------------------
  // Time-series buckets
  // ---------------------------------------------------------------

  /** The total column is the sum of the three group columns. */
  predicate Balanced(c: Columns) {
    c.all == c.trekking + c.bike + c.run
  }

  predicate BalancedBuckets<K>(series: map<K, Bucket>) {
    forall k :: k in series ==> Balanced(series[k].distance) && Balanced(series[k].elevation)
  }

  predicate BalancedSeries(s: TimeSeries) {
    BalancedBuckets(s.byDay) && BalancedBuckets(s.byWeek) && BalancedBuckets(s.byMonth)
  }

  lemma AggregateKeepsBalance<K>(series: map<K, Bucket>, key: K, g: Group, km: real, elevation: real)
    requires BalancedBuckets(series)
    ensures BalancedBuckets(Aggregate(series, key, g, km, elevation))
    ensures Aggregate(series, key, g, km, elevation).Keys == series.Keys + {key}
  {
    var b := if key in series then series[key] else EmptyBucket;
    assert Balanced(b.distance) && Balanced(b.elevation);
  }

  lemma FileUnderKeepsBalance(s: TimeSeries, d: CivilDate, g: Group, km: real, elevation: real)
    requires ValidDate(d) && BalancedSeries(s)
    ensures BalancedSeries(FileUnder(s, d, g, km, elevation))
  {
    AggregateKeepsBalance(s.byDay, d, g, km, elevation);
    AggregateKeepsBalance(s.byWeek, GetWeekKey(d), g, km, elevation);
    AggregateKeepsBalance(s.byMonth, MonthOf(d), g, km, elevation);
  }

  lemma FiledKeepsBalance(series: TimeSeries, t: TrackRecord)
    requires ValidDates(t) && BalancedSeries(series)
    ensures BalancedSeries(Filed(series, t))
  {
    var date := ActivityDate(t);
    if date.Some? {
      var g, km, e := GroupOf(ActivityTypeOf(t)), OrZero(t.distance) / 1000.0, OrZero(t.elevationGain);
      FileUnderKeepsBalance(series, date.value, g, km, e);
      assert Filed(series, t) == FileUnder(series, date.value, g, km, e);
    }
  }

  /** In every day, week and month bucket, `all` is trekking + bike + run,
      for distance and for elevation alike. */
  lemma {:induction false} FoldBalanced(tracks: seq<TrackRecord>)
    requires AllValid(tracks)
    ensures BalancedSeries(Fold(tracks).timeSeries)
  {
    if tracks != [] {
      var init := tracks[..|tracks| - 1];
      FoldBalanced(init);
      FiledKeepsBalance(Fold(init).timeSeries, tracks[|tracks| - 1]);
    }
  }

  lemma DashboardBuckets(tracks: seq<TrackRecord>)
    requires AllValid(tracks)
    ensures BalancedSeries(DashboardOf(tracks).timeSeries)
    ensures forall d :: d in DashboardOf(tracks).timeSeries.byDay <==>
              exists i :: 0 <= i < |tracks| && ActivityDate(tracks[i]) == Some(d)
  {
    FoldBalanced(tracks);
    DashboardSlots(tracks);
    forall d ensures d in DashboardOf(tracks).timeSeries.byDay <==>
                     exists i :: 0 <= i < |tracks| && ActivityDate(tracks[i]) == Some(d) {
      assert AnyInSlot(tracks, DaySlot(d)) <==> exists i :: 0 <= i < |tracks| && ActivityDate(tracks[i]) == Some(d) by {
        if AnyInSlot(tracks, DaySlot(d)) {
          var i :| 0 <= i < |tracks| && InSlot(tracks[i], DaySlot(d));
          assert ActivityDate(tracks[i]) == Some(d);
        }
        if exists i :: 0 <= i < |tracks| && ActivityDate(tracks[i]) == Some(d) {
          var i :| 0 <= i < |tracks| && ActivityDate(tracks[i]) == Some(d);
          assert InSlot(tracks[i], DaySlot(d));
        }
      }
    }
  }

  // ---------------------------------------------------------------
  // Bucket contents
  // ---------------------------------------------------------------

  /** A bucket of one of the three series: a day, an ISO week or a month. */
  datatype Slot = DaySlot(day: CivilDate) | WeekSlot(week: WeekKey) | MonthSlot(month: MonthKey)

  /** A document is filed in the slot when it has a date and that date's
      day, week key or month is the slot's. */
  predicate InSlot(t: TrackRecord, s: Slot)
    requires ValidDates(t)
  {
    match ActivityDate(t)
    case None => false
    case Some(d) =>
      match s
      case DaySlot(day) => d == day
      case WeekSlot(week) => GetWeekKey(d) == week
      case MonthSlot(month) => MonthOf(d) == month
  }

  /** The bucket the series holds for the slot, if any. */
  function BucketAt(series: TimeSeries, s: Slot): Option<Bucket> {
    match s
    case DaySlot(day) => if day in series.byDay then Some(series.byDay[day]) else None
    case WeekSlot(week) => if week in series.byWeek then Some(series.byWeek[week]) else None
    case MonthSlot(month) => if month in series.byMonth then Some(series.byMonth[month]) else None
  }

  /** Kilometres (`climb` false) or metres of climb (`climb` true) of a document. */
  function Measure(t: TrackRecord, climb: bool): real {
    if climb then OrZero(t.elevationGain) else OrZero(t.distance) / 1000.0
  }

  /** Reference sum: the measure of the documents filed in the slot, in the
      given group, or in any group when `g` is None. */
  function SlotSum(tracks: seq<TrackRecord>, s: Slot, g: Option<Group>, climb: bool): real
    requires AllValid(tracks)
  {
    if tracks == [] then 0.0
    else
      var t := tracks[|tracks| - 1];
      SlotSum(tracks[..|tracks| - 1], s, g, climb) +
        (if InSlot(t, s) && (g.None? || GroupOf(ActivityTypeOf(t)) == g.value) then Measure(t, climb) else 0.0)
  }

  function SlotColumns(tracks: seq<TrackRecord>, s: Slot, climb: bool): Columns
    requires AllValid(tracks)
  {
    Columns(SlotSum(tracks, s, None, climb), SlotSum(tracks, s, Some(Trekking), climb),
            SlotSum(tracks, s, Some(Bike), climb), SlotSum(tracks, s, Some(Run), climb))
  }

  /** Reference bucket: per column, the sums over the documents in the slot. */
  function SlotBucket(tracks: seq<TrackRecord>, s: Slot): Bucket
    requires AllValid(tracks)
  {
    Bucket(SlotColumns(tracks, s, false), SlotColumns(tracks, s, true))
  }

  /** Some document is filed in the slot. */
  predicate AnyInSlot(tracks: seq<TrackRecord>, s: Slot)
    requires AllValid(tracks)
  {
    exists i :: 0 <= i < |tracks| && InSlot(tracks[i], s)
  }

  /** Filing one document touches exactly the slots it falls in, adding its
      figures to the total and to its group's column. */
  lemma FiledSlot(series: TimeSeries, t: TrackRecord, s: Slot)
    requires ValidDates(t)
    ensures BucketAt(Filed(series, t), s) ==
      if InSlot(t, s) then
        var b := BucketAt(series, s).GetOr(EmptyBucket);
        var g := GroupOf(ActivityTypeOf(t));
        Some(Bucket(AddTo(b.distance, g, Measure(t, false)), AddTo(b.elevation, g, Measure(t, true))))
      else BucketAt(series, s)
  {
  }

  /** One more document adds its figures to its group and to the total of
      every slot it falls in. */
  lemma SlotBucketSnoc(tracks: seq<TrackRecord>, t: TrackRecord, s: Slot)
    requires AllValid(tracks) && ValidDates(t)
    ensures AllValid(tracks + [t])
    ensures SlotBucket(tracks + [t], s) ==
      if InSlot(t, s) then
        var b := SlotBucket(tracks, s);
        var g := GroupOf(ActivityTypeOf(t));
        Bucket(AddTo(b.distance, g, Measure(t, false)), AddTo(b.elevation, g, Measure(t, true)))
      else SlotBucket(tracks, s)
  {
    SlotSumSnoc(tracks, t, s, None, false);
    SlotSumSnoc(tracks, t, s, Some(Trekking), false);
    SlotSumSnoc(tracks, t, s, Some(Bike), false);
    SlotSumSnoc(tracks, t, s, Some(Run), false);
    SlotSumSnoc(tracks, t, s, None, true);
    SlotSumSnoc(tracks, t, s, Some(Trekking), true);
    SlotSumSnoc(tracks, t, s, Some(Bike), true);
    SlotSumSnoc(tracks, t, s, Some(Run), true);
  }

  lemma SlotSumSnoc(tracks: seq<TrackRecord>, t: TrackRecord, s: Slot, g: Option<Group>, climb: bool)
    requires AllValid(tracks) && ValidDates(t)
    ensures AllValid(tracks + [t])
    ensures SlotSum(tracks + [t], s, g, climb) == SlotSum(tracks, s, g, climb) +
      (if InSlot(t, s) && (g.None? || GroupOf(ActivityTypeOf(t)) == g.value) then Measure(t, climb) else 0.0)
  {
    var all := tracks + [t];
    assert all[..|all| - 1] == tracks && all[|all| - 1] == t;
  }

  /** A slot no document falls in sums to zero. */
  lemma {:induction false} EmptySlot(tracks: seq<TrackRecord>, s: Slot)
    requires AllValid(tracks) && !AnyInSlot(tracks, s)
    ensures SlotBucket(tracks, s) == EmptyBucket
  {
    if tracks != [] {
      var init := tracks[..|tracks| - 1];
      assert !AnyInSlot(init, s) by {
        forall i | 0 <= i < |init| ensures !InSlot(init[i], s) {
          assert init[i] == tracks[i];
        }
      }
      EmptySlot(init, s);
      assert !InSlot(tracks[|tracks| - 1], s);
    }
  }

  /** Every bucket holds exactly the sums of the documents filed in it, per
      group and in total, and a bucket exists exactly when some document
      falls in it. */
  lemma {:induction false} FoldSlot(tracks: seq<TrackRecord>, s: Slot)
    requires AllValid(tracks)
    ensures BucketAt(Fold(tracks).timeSeries, s) ==
              if AnyInSlot(tracks, s) then Some(SlotBucket(tracks, s)) else None
  {
    if tracks != [] {
      var n := |tracks|;
      var init, t := tracks[..n - 1], tracks[n - 1];
      assert init + [t] == tracks;
      FoldSlot(init, s);
      FiledSlot(Fold(init).timeSeries, t, s);
      SlotBucketSnoc(init, t, s);
      assert AnyInSlot(tracks, s) <==> AnyInSlot(init, s) || InSlot(t, s) by {
        if AnyInSlot(init, s) {
          var i :| 0 <= i < |init| && InSlot(init[i], s);
          assert tracks[i] == init[i];
        }
        if AnyInSlot(tracks, s) && !InSlot(t, s) {
          var i :| 0 <= i < n && InSlot(tracks[i], s);
          assert i < n - 1 && init[i] == tracks[i];
        }
      }
      if !AnyInSlot(init, s) {
        EmptySlot(init, s);
      }
    }
  }

  /** The day, week and month buckets of the returned stats: one per day,
      week key and month some dated document falls in, holding the km and
      the climb of those documents per group and in total. */
  lemma DashboardSlots(tracks: seq<TrackRecord>)
    requires AllValid(tracks)
    ensures var series := DashboardOf(tracks).timeSeries;
      && (forall d :: d in series.byDay <==> AnyInSlot(tracks, DaySlot(d)))
      && (forall d :: d in series.byDay ==> series.byDay[d] == SlotBucket(tracks, DaySlot(d)))
      && (forall k :: k in series.byWeek <==> AnyInSlot(tracks, WeekSlot(k)))
      && (forall k :: k in series.byWeek ==> series.byWeek[k] == SlotBucket(tracks, WeekSlot(k)))
      && (forall m :: m in series.byMonth <==> AnyInSlot(tracks, MonthSlot(m)))
      && (forall m :: m in series.byMonth ==> series.byMonth[m] == SlotBucket(tracks, MonthSlot(m)))
  {
    var series := DashboardOf(tracks).timeSeries;
    assert series == Fold(tracks).timeSeries;
    forall d ensures (d in series.byDay <==> AnyInSlot(tracks, DaySlot(d)))
      && (d in series.byDay ==> series.byDay[d] == SlotBucket(tracks, DaySlot(d))) {
      FoldSlot(tracks, DaySlot(d));
    }
    forall k ensures (k in series.byWeek <==> AnyInSlot(tracks, WeekSlot(k)))
      && (k in series.byWeek ==> series.byWeek[k] == SlotBucket(tracks, WeekSlot(k))) {
      FoldSlot(tracks, WeekSlot(k));
    }
    forall m ensures (m in series.byMonth <==> AnyInSlot(tracks, MonthSlot(m)))
      && (m in series.byMonth ==> series.byMonth[m] == SlotBucket(tracks, MonthSlot(m))) {
      FoldSlot(tracks, MonthSlot(m));
    }
  }

  /** No documents: zero totals, placeholder records, no buckets. */
  lemma EmptyDashboard()
    ensures DashboardOf([]) == Initial
  {
  }
}
