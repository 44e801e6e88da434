/** The two lookup tables keyed by activity type: the activity -> group map
    used by the dashboard and the challenges, and the per-activity speed
    ceiling used to reject GPS speed spikes. Activity types stay strings,
    as in the stored documents; the three groups are an enumeration. */
module Activities {
  import opened Options

  datatype Group = Trekking | Bike | Run

  /** The activity types that have an entry in the group map. */
  const KnownActivities: set<string> :=
    {"trekking", "camminata", "alpinismo", "scialpinismo", "trail-running", "corsa", "bike", "mtb", "ebike"}

  /** The name a group has in stored documents and challenge definitions. */
  function GroupName(g: Group): string {
    match g
    case Trekking => "trekking"
    case Bike => "bike"
    case Run => "run"
  }

  /** The group a name denotes, if it denotes one. */
  function ParseGroup(s: string): (r: Option<Group>)
    ensures r.Some? ==> GroupName(r.value) == s
    ensures r.None? ==> s != "trekking" && s != "bike" && s != "run"
  {
    if s == "trekking" then Some(Trekking)
    else if s == "bike" then Some(Bike)
    else if s == "run" then Some(Run)
    else None
  }

  lemma ParseGroupName(g: Group)
    ensures ParseGroup(GroupName(g)) == Some(g)
  {
  }

  /** `activityGroupMap[activity] || 'trekking'`: unknown activities are trekking. */
  function GroupOf(activity: string): (g: Group)
    ensures g == Run <==> activity == "trail-running" || activity == "corsa"
    ensures g == Bike <==> activity == "bike" || activity == "mtb" || activity == "ebike"
    ensures activity !in KnownActivities ==> g == Trekking
  {
    if activity == "trail-running" || activity == "corsa" then Run
    else if activity == "bike" || activity == "mtb" || activity == "ebike" then Bike
    else Trekking
  }

  /** The group of a stored track whose activity type may be missing. */
  function TrackGroup(activity: Option<string>): (g: Group)
    ensures activity.None? ==> g == Trekking
    ensures activity.Some? ==> g == GroupOf(activity.value)
  {
    match activity
    case None => Trekking
    case Some(a) => GroupOf(a)
  }

  /** `MAX_SPEED_FILTER_MPS[activity] || MAX_SPEED_FILTER_MPS.default`, in m/s. */
  function MaxSpeedCeiling(activity: string): (r: real)
    ensures 0.0 < r <= 33.0
    ensures activity !in KnownActivities ==> r == 25.0
    ensures GroupOf(activity) == Trekking && activity != "scialpinismo" ==> r <= 25.0
  {
    if activity == "trekking" || activity == "camminata" then 5.5
    else if activity == "corsa" then 12.0
    else if activity == "trail-running" then 10.0
    else if activity == "alpinismo" then 4.0
    else if activity == "scialpinismo" then 30.0
    else if activity == "bike" then 33.0
    else if activity == "mtb" || activity == "ebike" then 28.0
    else 25.0
  }
}
