/** A stored track document as the dashboard, the XP award, the challenge
    update and the leaderboard read it. Every numeric field may be absent
    (`undefined`); absent and 0 are both falsy, and most readers count an
    absent value as 0 (`x || 0`). */
module Records {
  import opened Options
  import opened Activities
  import opened Calendar

  /** `recordedAt`: absent, present but not a parseable date, or a date. */
  datatype Stamp = Missing | Unparseable | At(date: CivilDate)

  datatype TrackRecord = TrackRecord(
    name: Option<string>,
    distance: Option<real>,
    elevationGain: Option<real>,
    duration: Option<real>,
    activityType: Option<string>,
    isPublic: bool,
    isPending: Option<bool>,
    recordedAt: Stamp,
    createdAt: Option<CivilDate>)

  /** `track.activityType || 'trekking'`: a missing or empty type is trekking. */
  function ActivityTypeOf(t: TrackRecord): (a: string)
    ensures a != ""
    ensures t.activityType.Some? && t.activityType.value != "" ==> a == t.activityType.value
  {
    if t.activityType.Some? && t.activityType.value != "" then t.activityType.value else "trekking"
  }

  /** The group the track is counted under; the same whether the missing
      type is defaulted before or after the lookup. */
  function GroupOfTrack(t: TrackRecord): (g: Group)
    ensures g == GroupOf(ActivityTypeOf(t))
  {
    TrackGroup(t.activityType)
  }

  /** The date a track is filed under in the time series: `recordedAt`
      when it is present (the track is skipped if it does not parse),
      otherwise `createdAt`, otherwise none. */
  function ActivityDate(t: TrackRecord): (d: Option<CivilDate>)
    ensures t.recordedAt.At? ==> d == Some(t.recordedAt.date)
    ensures t.recordedAt.Unparseable? ==> d.None?
    ensures t.recordedAt.Missing? ==> d == t.createdAt
  {
    match t.recordedAt
    case At(date) => Some(date)
    case Unparseable => None
    case Missing => t.createdAt
  }
}
