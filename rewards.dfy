/** What a saved track earns: the XP award of `onTrackCreate`, the progress
    a challenge receives from it (shared by `onTrackCreate` and
    `onTrackUpdate`), and the test by which `onTrackUpdate` decides that a
    track has just become complete. */
module Rewards {
  import opened Options
  import opened Activities
  import opened Records

  const XpPerKm: int := 10
  const XpPer100mElevation: int := 20
  const XpBonusShare: int := 50
  const XpForSavingTrack: int := 25

  /** `Math.round`: the nearest integer, halves rounded up. */
  function JsRound(x: real): (r: int)
    ensures x - 0.5 < r as real <= x + 0.5
  {
    (x + 0.5).Floor
  }

  lemma JsRoundMonotone(x: real, y: real)
    requires x <= y
    ensures JsRound(x) <= JsRound(y)
  {
  }

  /** XP for a saved track: 25, plus 10 per km and 20 per 100 m of climb
      (each rounded, each only when the field is truthy), plus 50 when the
      track is public. */
  function TrackXp(t: TrackRecord): int {
    XpForSavingTrack
    + (if Truthy(t.distance) then JsRound(t.distance.value / 1000.0 * XpPerKm as real) else 0)
    + (if Truthy(t.elevationGain) then JsRound(t.elevationGain.value / 100.0 * XpPer100mElevation as real) else 0)
    + (if t.isPublic then XpBonusShare else 0)
  }

  /** The XP actually added to the profile: only a positive total is added. */
  function XpAward(t: TrackRecord): (r: int)
    ensures r >= 0
    ensures r > 0 <==> TrackXp(t) > 0
    ensures r > 0 ==> r == TrackXp(t)
  {
    if TrackXp(t) > 0 then TrackXp(t) else 0
  }

  /** The truthiness tests make no difference: a missing or zero field
      contributes 0 either way. */
  lemma XpCountsMissingAsZero(t: TrackRecord)
    ensures TrackXp(t) ==
      XpForSavingTrack + JsRound(OrZero(t.distance) / 100.0) + JsRound(OrZero(t.elevationGain) / 5.0)
      + (if t.isPublic then XpBonusShare else 0)
  {
    assert JsRound(0.0) == 0;
  }

  /** The award is within one point of the unrounded formula
      25 + distance/100 + climb/5 (+ 50). */
  lemma XpNearExact(t: TrackRecord)
    ensures var exact := 25.0 + OrZero(t.distance) / 100.0 + OrZero(t.elevationGain) / 5.0
                         + (if t.isPublic then 50.0 else 0.0);
      exact - 1.0 < TrackXp(t) as real <= exact + 1.0
  {
    XpCountsMissingAsZero(t);
  }

  /** A track with no negative figures earns at least 25, at least 75 when
      public, and its award is its full XP. */
  lemma XpAtLeastBase(t: TrackRecord)
    requires OrZero(t.distance) >= 0.0 && OrZero(t.elevationGain) >= 0.0
    ensures TrackXp(t) >= XpForSavingTrack + (if t.isPublic then XpBonusShare else 0)
    ensures XpAward(t) == TrackXp(t)
  {
    XpCountsMissingAsZero(t);
    JsRoundMonotone(0.0, OrZero(t.distance) / 100.0);
    JsRoundMonotone(0.0, OrZero(t.elevationGain) / 5.0);
    assert JsRound(0.0) == 0;
  }

  /** Longer or higher never earns less. */
  lemma XpMonotone(t: TrackRecord, u: TrackRecord)
    requires OrZero(t.distance) <= OrZero(u.distance)
    requires OrZero(t.elevationGain) <= OrZero(u.elevationGain)
    requires t.isPublic ==> u.isPublic
    ensures TrackXp(t) <= TrackXp(u)
  {
    XpCountsMissingAsZero(t);
    XpCountsMissingAsZero(u);
    JsRoundMonotone(OrZero(t.distance) / 100.0, OrZero(u.distance) / 100.0);
    JsRoundMonotone(OrZero(t.elevationGain) / 5.0, OrZero(u.elevationGain) / 5.0);
  }

  // ---------------------------------------------------------------
  // Challenges
  // ---------------------------------------------------------------

  /** A challenge document: end instant (ms), optional activity-group
      restriction, and its type (`ELEVATION_TOTAL`, `DISTANCE_TOTAL`, or
      anything else). */
  datatype Challenge = Challenge(endDate: int, activityType: Option<string>, kind: string)

  /** The challenge names a group the track must belong to: its activity
      type is present, non-empty and not `all`. */
  predicate Restricted(ch: Challenge) {
    ch.activityType.Some? && ch.activityType.value != "" && ch.activityType.value != "all"
  }

  /** The track's contribution to a challenge of the given type, if the
      type is one that counts. */
  function ProgressFor(kind: string, t: TrackRecord): Option<real> {
    if kind == "ELEVATION_TOTAL" then Some(OrZero(t.elevationGain))
    else if kind == "DISTANCE_TOTAL" then Some(OrZero(t.distance))
    else None
  }

  /** The increment a participant's progress receives from a track at
      instant `now`, or None when the participant document is not updated. */
  function ChallengeIncrement(ch: Challenge, t: TrackRecord, now: int): (r: Option<real>)
    ensures r.Some? <==>
      && ch.endDate >= now
      && (Restricted(ch) ==> GroupName(TrackGroup(t.activityType)) == ch.activityType.value)
      && (ch.kind == "ELEVATION_TOTAL" || ch.kind == "DISTANCE_TOTAL")
      && ProgressFor(ch.kind, t).value > 0.0
    ensures r.Some? ==> r.value > 0.0
    ensures r.Some? && ch.kind == "ELEVATION_TOTAL" ==> r.value == t.elevationGain.value
    ensures r.Some? && ch.kind == "DISTANCE_TOTAL" ==> r.value == t.distance.value
  {
    if ch.endDate < now then None
    else if Restricted(ch) && GroupName(TrackGroup(t.activityType)) != ch.activityType.value then None
    else
      match ProgressFor(ch.kind, t)
      case None => None
      case Some(p) => if p > 0.0 then Some(p) else None
  }

  /** A challenge restricted to something that is not a group name (an
      activity type such as `corsa`, say) never receives progress. */
  lemma NonGroupRestrictionNeverCounts(ch: Challenge, t: TrackRecord, now: int)
    requires Restricted(ch) && ParseGroup(ch.activityType.value).None?
    ensures ChallengeIncrement(ch, t, now).None?
  {
  }

  /** An unrestricted challenge ignores the activity type. */
  lemma UnrestrictedIgnoresActivity(ch: Challenge, t: TrackRecord, now: int, activity: Option<string>)
    requires !Restricted(ch)
    ensures ChallengeIncrement(ch, t, now) == ChallengeIncrement(ch, t.(activityType := activity), now)
  {
  }

  /** An expired challenge, or one of another type, is never updated. */
  lemma ExpiredOrOtherTypeNeverCounts(ch: Challenge, t: TrackRecord, now: int)
    requires ch.endDate < now || (ch.kind != "ELEVATION_TOTAL" && ch.kind != "DISTANCE_TOTAL")
    ensures ChallengeIncrement(ch, t, now).None?
  {
  }

  // ---------------------------------------------------------------
  // onTrackUpdate's completion test
  // ---------------------------------------------------------------

  /** Before the update the track had no distance (missing or 0) or was
      still pending. */
  predicate WasIncomplete(before: TrackRecord) {
    !Truthy(before.distance) || before.distance == Some(0.0) || before.isPending == Some(true)
  }

  /** After the update it has a positive distance and is not pending. */
  predicate IsNowComplete(after: TrackRecord) {
    Truthy(after.distance) && after.distance.value > 0.0 && after.isPending != Some(true)
  }

  /** Challenges are updated only when a track passes from incomplete to
      complete. */
  function BecameComplete(before: TrackRecord, after: TrackRecord): (r: bool)
    ensures r <==>
      && (after.distance.Some? && after.distance.value > 0.0 && after.isPending != Some(true))
      && (before.distance.None? || before.distance.value == 0.0 || before.isPending == Some(true))
  {
    WasIncomplete(before) && IsNowComplete(after)
  }

  /** The guard against update loops: once a track is complete, no further
      update of it triggers the challenge update again, and an update that
      leaves the track as it was never does. */
  lemma CompletionTriggersOnce(before: TrackRecord, after: TrackRecord, later: TrackRecord)
    ensures BecameComplete(before, after) ==> !BecameComplete(after, later)
    ensures !BecameComplete(after, after)
  {
  }
}
