/** `getProfileDashboardStats`: one pass over a user's track documents that
    sums the totals, keeps the longest / highest / longest-lasting track,
    counts tracks per activity type, and adds each dated track to a day,
    an ISO-week and a month bucket, split by activity group.

    `DashboardOf` is the pass as a fold over the list of documents; the
    method `GetProfileDashboardStats` updates the same variables in a loop
    and is proved to return `DashboardOf`. */
module Dashboard {
  import opened Options
  import opened Activities
  import opened Calendar
  import opened Records

  /** One measure of a bucket: the total and its three group columns. */
  datatype Columns = Columns(all: real, trekking: real, bike: real, run: real)

  datatype Bucket = Bucket(distance: Columns, elevation: Columns)

  datatype MonthKey = MonthKey(year: int, month: int)

  datatype TimeSeries = TimeSeries(
    byDay: map<CivilDate, Bucket>, byWeek: map<WeekKey, Bucket>, byMonth: map<MonthKey, Bucket>)

  /** A "longest" record: the name of the holding track and its figure. */
  datatype Best = Best(name: Option<string>, value: real)

  datatype DashboardStats = DashboardStats(
    totalTracks: nat,
    totalDistance: real, totalElevationGain: real, totalDuration: real,
    activityTypes: map<string, nat>,
    longestTrack: Best, highestElevationTrack: Best, longestDurationTrack: Best,
    timeSeries: TimeSeries)

  const NoTrackName: string := "Nessuna traccia"

  const NoBest: Best := Best(Some(NoTrackName), 0.0)

  const ZeroColumns: Columns := Columns(0.0, 0.0, 0.0, 0.0)

  const EmptyBucket: Bucket := Bucket(ZeroColumns, ZeroColumns)

  const EmptySeries: TimeSeries := TimeSeries(map[], map[], map[])

  const Initial: DashboardStats :=
    DashboardStats(0, 0.0, 0.0, 0.0, map[], NoBest, NoBest, NoBest, EmptySeries)

  /** All stored dates of the documents are real calendar dates. */
  predicate ValidDates(t: TrackRecord) {
    && (t.recordedAt.At? ==> ValidDate(t.recordedAt.date))
    && (t.createdAt.Some? ==> ValidDate(t.createdAt.value))
  }

  // ---------------------------------------------------------------
  // One document
  // ---------------------------------------------------------------

  /** Add `v` to the total and to the group's column. */
  function AddTo(c: Columns, g: Group, v: real): Columns {
    match g
    case Trekking => c.(all := c.all + v, trekking := c.trekking + v)
    case Bike => c.(all := c.all + v, bike := c.bike + v)
    case Run => c.(all := c.all + v, run := c.run + v)
  }

  /** The `aggregate(series, key)` helper: create the bucket if missing,
      then add the distance (km) and the climb under the group. */
  function Aggregate<K>(series: map<K, Bucket>, key: K, g: Group, km: real, elevation: real): map<K, Bucket> {
    var b := if key in series then series[key] else EmptyBucket;
    series[key := Bucket(AddTo(b.distance, g, km), AddTo(b.elevation, g, elevation))]
  }

  /** The record after a track with figure `v`: replaced only when `v` is
      strictly greater. */
  function Improve(b: Best, name: Option<string>, v: real): Best {
    if v > b.value then Best(name, v) else b
  }

  function CountType(types: map<string, nat>, a: string): map<string, nat> {
    types[a := (if a in types then types[a] else 0) + 1]
  }

  function MonthOf(d: CivilDate): MonthKey {
    MonthKey(d.year, d.month)
  }

  /** The time series after a dated track. */
  function FileUnder(s: TimeSeries, d: CivilDate, g: Group, km: real, elevation: real): TimeSeries
    requires ValidDate(d)
  {
    TimeSeries(Aggregate(s.byDay, d, g, km, elevation),
               Aggregate(s.byWeek, GetWeekKey(d), g, km, elevation),
               Aggregate(s.byMonth, MonthOf(d), g, km, elevation))
  }

  /** The totals, records and type counts after a document. */
  function Counted(s: DashboardStats, t: TrackRecord): DashboardStats {
    var d, e, u := OrZero(t.distance), OrZero(t.elevationGain), OrZero(t.duration);
    s.(totalDistance := s.totalDistance + d,
       totalElevationGain := s.totalElevationGain + e,
       totalDuration := s.totalDuration + u,
       longestTrack := Improve(s.longestTrack, t.name, d),
       highestElevationTrack := Improve(s.highestElevationTrack, t.name, e),
       longestDurationTrack := Improve(s.longestDurationTrack, t.name, u),
       activityTypes := CountType(s.activityTypes, ActivityTypeOf(t)))
  }

  /** The time series after a document: filed under its date when it has one. */
  function Filed(series: TimeSeries, t: TrackRecord): TimeSeries
    requires ValidDates(t)
  {
    match ActivityDate(t)
    case None => series
    case Some(date) =>
      FileUnder(series, date, GroupOf(ActivityTypeOf(t)), OrZero(t.distance) / 1000.0, OrZero(t.elevationGain))
  }

  /** The body of the `forEach` for one document: count it, then file it. */
  function Step(s: DashboardStats, t: TrackRecord): DashboardStats
    requires ValidDates(t)
  {
    Counted(s, t).(timeSeries := Filed(s.timeSeries, t))
  }

  /** The state after the first documents. */
  function Fold(tracks: seq<TrackRecord>): DashboardStats
    requires forall i :: 0 <= i < |tracks| ==> ValidDates(tracks[i])
  {
    if tracks == [] then Initial
    else Step(Fold(tracks[..|tracks| - 1]), tracks[|tracks| - 1])
  }

  /** What `getProfileDashboardStats` returns for the given documents. */
  function DashboardOf(tracks: seq<TrackRecord>): DashboardStats
    requires forall i :: 0 <= i < |tracks| ==> ValidDates(tracks[i])
  {
    Fold(tracks).(totalTracks := |tracks|)
  }

  // ---------------------------------------------------------------
  // The pass
  // ---------------------------------------------------------------

  /** `aggregate(series, key)`, updating the bucket field by field. */
  method AggregateInto<K>(series: map<K, Bucket>, key: K, g: Group, distanceKm: real, elevation: real)
    returns (updated: map<K, Bucket>)
    ensures updated == Aggregate(series, key, g, distanceKm, elevation)
  {
    var bucket := EmptyBucket;
    if key in series {
      bucket := series[key];
    }
    var distance, climb := bucket.distance, bucket.elevation;
    distance := distance.(all := distance.all + distanceKm);
    climb := climb.(all := climb.all + elevation);
    match g {
      case Trekking =>
        distance := distance.(trekking := distance.trekking + distanceKm);
        climb := climb.(trekking := climb.trekking + elevation);
      case Bike =>
        distance := distance.(bike := distance.bike + distanceKm);
        climb := climb.(bike := climb.bike + elevation);
      case Run =>
        distance := distance.(run := distance.run + distanceKm);
        climb := climb.(run := climb.run + elevation);
    }
    updated := series[key := Bucket(distance, climb)];
  }

  /** The totals, records and type counts, updated variable by variable. */
  method CountTrack(s: DashboardStats, track: TrackRecord) returns (next: DashboardStats)
    ensures next == Counted(s, track)
  {
    var distance, elevationGain, duration := OrZero(track.distance), OrZero(track.elevationGain), OrZero(track.duration);
    var longestTrack, highestElevationTrack, longestDurationTrack :=
      s.longestTrack, s.highestElevationTrack, s.longestDurationTrack;
    if distance > longestTrack.value {
      longestTrack := Best(track.name, distance);
    }
    if elevationGain > highestElevationTrack.value {
      highestElevationTrack := Best(track.name, elevationGain);
    }
    if duration > longestDurationTrack.value {
      longestDurationTrack := Best(track.name, duration);
    }
    var activity := ActivityTypeOf(track);
    var activityTypes := s.activityTypes;
    activityTypes := activityTypes[activity := (if activity in activityTypes then activityTypes[activity] else 0) + 1];
    next := s.(totalDistance := s.totalDistance + distance,
               totalElevationGain := s.totalElevationGain + elevationGain,
               totalDuration := s.totalDuration + duration,
               longestTrack := longestTrack, highestElevationTrack := highestElevationTrack,
               longestDurationTrack := longestDurationTrack,
               activityTypes := activityTypes);
  }

  /** The three `aggregate` calls for a dated document. */
  method FileTrack(series: TimeSeries, date: CivilDate, group: Group, distanceKm: real, elevation: real)
    returns (next: TimeSeries)
    requires ValidDate(date)
    ensures next == FileUnder(series, date, group, distanceKm, elevation)
  {
    var byDay := AggregateInto(series.byDay, date, group, distanceKm, elevation);
    var byWeek := AggregateInto(series.byWeek, GetWeekKey(date), group, distanceKm, elevation);
    var byMonth := AggregateInto(series.byMonth, MonthOf(date), group, distanceKm, elevation);
    next := TimeSeries(byDay, byWeek, byMonth);
  }

  /** The body of the `forEach` for one document. */
  method VisitTrack(s: DashboardStats, track: TrackRecord) returns (next: DashboardStats)
    requires ValidDates(track)
    ensures next == Step(s, track)
  {
    next := CountTrack(s, track);
    var activityDate := ActivityDate(track);
    if activityDate.Some? {
      var timeSeries := FileTrack(next.timeSeries, activityDate.value, GroupOf(ActivityTypeOf(track)),
                                  OrZero(track.distance) / 1000.0, OrZero(track.elevationGain));
      next := next.(timeSeries := timeSeries);
    }
  }

  method GetProfileDashboardStats(tracks: seq<TrackRecord>) returns (r: DashboardStats)
    requires forall i :: 0 <= i < |tracks| ==> ValidDates(tracks[i])
    ensures r == DashboardOf(tracks)
  {
    if |tracks| == 0 {
      return Initial;
    }
    var s := Initial;
    for i := 0 to |tracks|
      invariant s == Fold(tracks[..i])
    {
      assert tracks[..i + 1][..i] == tracks[..i];
      s := VisitTrack(s, tracks[i]);
    }
    assert tracks[..|tracks|] == tracks;
    r := s.(totalTracks := |tracks|);
  }
}
