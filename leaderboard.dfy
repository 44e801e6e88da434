/** `calculateWeeklyLeaderboards`, for one user: the week's totals of every
    member of the user's social circle (the accounts followed, then the user),
    one entry per member, sorted by XP and then by distance, both descending.

    Which tracks fall in the week is decided by a database query; here each
    member's week arrives as a list of track documents, in the order of the
    circle. */
module Leaderboard {
  import opened Options
  import opened Records
  import opened Rewards

  /** One member's week: distance (m), climb (m) and XP. */
  datatype Totals = Totals(distance: real, elevation: real, xp: int)

  /** A leaderboard row (name and avatar, read from the profile, are left out). */
  datatype Entry = Entry(userId: string, distance: real, elevation: real, xp: int)

  /** `weeklyStats.get(id) || { distance: 0, elevation: 0, xp: 0 }`. */
  const NoActivity: Totals := Totals(0.0, 0.0, 0)

  // ---------------------------------------------------------------
  // One member's week
  // ---------------------------------------------------------------

  /** The totals after one more track: distance and climb with a missing
      value counted as 0, and the track's XP. */
  function AddTrack(w: Totals, t: TrackRecord): Totals {
    Totals(w.distance + OrZero(t.distance), w.elevation + OrZero(t.elevationGain), w.xp + TrackXp(t))
  }

  /** The week's totals over the tracks, in order. */
  function WeekTotals(tracks: seq<TrackRecord>): Totals {
    if tracks == [] then NoActivity
    else AddTrack(WeekTotals(tracks[..|tracks| - 1]), tracks[|tracks| - 1])
  }

  /** The inner `forEach` over a member's tracks. */
  method SumWeek(tracks: seq<TrackRecord>) returns (w: Totals)
    ensures w == WeekTotals(tracks)
  {
    var totalDistance, totalElevation, totalXp := 0.0, 0.0, 0;
    for i := 0 to |tracks|
      invariant Totals(totalDistance, totalElevation, totalXp) == WeekTotals(tracks[..i])
    {
      var track := tracks[i];
      assert tracks[..i + 1][..i] == tracks[..i];
      totalDistance := totalDistance + OrZero(track.distance);
      totalElevation := totalElevation + OrZero(track.elevationGain);
      totalXp := totalXp + TrackXp(track);
    }
    assert tracks[..|tracks|] == tracks;
    w := Totals(totalDistance, totalElevation, totalXp);
  }

  function Combine(a: Totals, b: Totals): Totals {
    Totals(a.distance + b.distance, a.elevation + b.elevation, a.xp + b.xp)
  }

  /** The totals of two runs of tracks add up, so they do not depend on
      how the week is split. */
  lemma {:induction false} WeekTotalsAppend(a: seq<TrackRecord>, b: seq<TrackRecord>)
    ensures WeekTotals(a + b) == Combine(WeekTotals(a), WeekTotals(b))
  {
    if b == [] {
      assert a + b == a;
    } else {
      var init := b[..|b| - 1];
      assert (a + b)[..|a + b| - 1] == a + init;
      assert (a + b)[|a + b| - 1] == b[|b| - 1];
      WeekTotalsAppend(a, init);
    }
  }

  predicate NonNegativeFigures(t: TrackRecord) {
    OrZero(t.distance) >= 0.0 && OrZero(t.elevationGain) >= 0.0
  }

  /** With no negative figures the totals are non-negative and every track
      is worth at least the 25 XP for saving it. */
  lemma {:induction false} WeekTotalsBounds(tracks: seq<TrackRecord>)
    requires forall i :: 0 <= i < |tracks| ==> NonNegativeFigures(tracks[i])
    ensures WeekTotals(tracks).distance >= 0.0 && WeekTotals(tracks).elevation >= 0.0
    ensures WeekTotals(tracks).xp >= XpForSavingTrack * |tracks|
  {
    if tracks != [] {
      var init := tracks[..|tracks| - 1];
      WeekTotalsBounds(init);
      XpAtLeastBase(tracks[|tracks| - 1]);
    }
  }

  // ---------------------------------------------------------------
  // The XP sum as written
  // ---------------------------------------------------------------

  /** A track's weekly XP as written: the two `Math.round` terms have no
      `|| 0`, so a missing distance or climb gives `NaN` (here None). */
  function TrackXpAsWritten(t: TrackRecord): Option<int> {
    if t.distance.None? || t.elevationGain.None? then None
    else Some(XpForSavingTrack
              + JsRound(t.distance.value / 1000.0 * XpPerKm as real)
              + JsRound(t.elevationGain.value / 100.0 * XpPer100mElevation as real)
              + (if t.isPublic then XpBonusShare else 0))
  }

  /** The weekly XP sum as written: once `NaN`, always `NaN`. */
  function WeekXpAsWritten(tracks: seq<TrackRecord>): Option<int> {
    if tracks == [] then Some(0)
    else
      match (WeekXpAsWritten(tracks[..|tracks| - 1]), TrackXpAsWritten(tracks[|tracks| - 1]))
      case (Some(sum), Some(x)) => Some(sum + x)
      case _ => None
  }

  predicate FiguresPresent(t: TrackRecord) {
    t.distance.Some? && t.elevationGain.Some?
  }

  /** For a track with both figures the two formulas agree with the XP
      `onTrackCreate` awards. */
  lemma TrackXpAsWrittenAgrees(t: TrackRecord)
    ensures FiguresPresent(t) <==> TrackXpAsWritten(t).Some?
    ensures FiguresPresent(t) ==> TrackXpAsWritten(t) == Some(TrackXp(t))
  {
    if FiguresPresent(t) {
      assert JsRound(0.0) == 0;
    }
  }

  /** The weekly sum as written is a number exactly when every track has
      both figures, and it is then the corrected sum. */
  lemma {:induction false} WeekXpAsWrittenAgrees(tracks: seq<TrackRecord>)
    ensures WeekXpAsWritten(tracks).Some? <==> forall i :: 0 <= i < |tracks| ==> FiguresPresent(tracks[i])
    ensures WeekXpAsWritten(tracks).Some? ==> WeekXpAsWritten(tracks).value == WeekTotals(tracks).xp
  {
    if tracks != [] {
      var n := |tracks|;
      var init := tracks[..n - 1];
      WeekXpAsWrittenAgrees(init);
      TrackXpAsWrittenAgrees(tracks[n - 1]);
      assert forall i :: 0 <= i < n - 1 ==> init[i] == tracks[i];
    }
  }

  /** A track still being processed, not yet given a distance or a climb. */
  const PendingTrack: TrackRecord :=
    TrackRecord(Some("Giro"), None, None, None, Some("trekking"), false, Some(true), Missing, None)

  const FinishedTrack: TrackRecord :=
    TrackRecord(Some("Anello"), Some(5000.0), Some(300.0), Some(3600.0), Some("trekking"), true, Some(false), Missing, None)

  /** One pending track makes the whole week's XP `NaN`, where the corrected
      sum counts 75 + 50 + 60 for the finished track and 25 for the pending one. */
  lemma PendingTrackSpoilsWeek()
    ensures WeekXpAsWritten([FinishedTrack, PendingTrack]).None?
    ensures WeekTotals([FinishedTrack, PendingTrack]).xp == 210
  {
    var week := [FinishedTrack, PendingTrack];
    assert week[..1] == [FinishedTrack];
    assert week[..1][..0] == [];
    assert JsRound(5000.0 / 1000.0 * XpPerKm as real) == 50;
    assert JsRound(300.0 / 100.0 * XpPer100mElevation as real) == 60;
    assert TrackXp(FinishedTrack) == 185;
    assert TrackXp(PendingTrack) == 25;
    assert WeekTotals(week[..1]).xp == 185;
  }

  // ---------------------------------------------------------------
  // The circle's weekly stats
  // ---------------------------------------------------------------

  /** `weeklyStats`: for the i-th member, set when its query found tracks. */
  function StatsOf(ids: seq<string>, weeks: seq<seq<TrackRecord>>): map<string, Totals>
    requires |weeks| == |ids|
  {
    if ids == [] then map[]
    else
      var n := |ids|;
      var m := StatsOf(ids[..n - 1], weeks[..n - 1]);
      if weeks[n - 1] == [] then m else m[ids[n - 1] := WeekTotals(weeks[n - 1])]
  }

  /** The `results.forEach` that fills `weeklyStats`. */
  method CollectWeeklyStats(ids: seq<string>, weeks: seq<seq<TrackRecord>>) returns (stats: map<string, Totals>)
    requires |weeks| == |ids|
    ensures stats == StatsOf(ids, weeks)
  {
    stats := map[];
    for i := 0 to |ids|
      invariant stats == StatsOf(ids[..i], weeks[..i])
    {
      assert ids[..i + 1][..i] == ids[..i] && weeks[..i + 1][..i] == weeks[..i];
      if weeks[i] != [] {
        var totals := SumWeek(weeks[i]);
        stats := stats[ids[i] := totals];
      }
    }
    assert ids[..|ids|] == ids && weeks[..|weeks|] == weeks;
  }

  predicate Distinct(ids: seq<string>) {
    forall i, j :: 0 <= i < j < |ids| ==> ids[i] != ids[j]
  }

  /** A member has stats exactly when their query found tracks; with no
      repeated member, they are that member's totals. */
  lemma {:induction false} StatsOfMembers(ids: seq<string>, weeks: seq<seq<TrackRecord>>)
    requires |weeks| == |ids| && Distinct(ids)
    ensures forall i :: 0 <= i < |ids| ==> (ids[i] in StatsOf(ids, weeks) <==> weeks[i] != [])
    ensures forall i :: 0 <= i < |ids| && weeks[i] != [] ==> StatsOf(ids, weeks)[ids[i]] == WeekTotals(weeks[i])
    ensures forall id :: id in StatsOf(ids, weeks) ==> id in ids
  {
    if ids != [] {
      var n := |ids|;
      StatsOfMembers(ids[..n - 1], weeks[..n - 1]);
      forall i | 0 <= i < n - 1
        ensures ids[i] == ids[..n - 1][i] && weeks[i] == weeks[..n - 1][i] && ids[i] != ids[n - 1]
      {
      }
    }
  }

  /** A member's totals for the row, the zero default when they have none. */
  function TotalsFor(stats: map<string, Totals>, id: string): Totals {
    if id in stats then stats[id] else NoActivity
  }

  function EntryOf(id: string, w: Totals): Entry {
    Entry(id, w.distance, w.elevation, w.xp)
  }

  /** The `for (const id of socialCircleIds)` loop that builds the rows. */
  method Standings(ids: seq<string>, stats: map<string, Totals>) returns (board: seq<Entry>)
    ensures |board| == |ids|
    ensures forall i :: 0 <= i < |ids| ==> board[i] == EntryOf(ids[i], TotalsFor(stats, ids[i]))
  {
    board := [];
    for i := 0 to |ids|
      invariant |board| == i
      invariant forall k :: 0 <= k < i ==> board[k] == EntryOf(ids[k], TotalsFor(stats, ids[k]))
    {
      board := board + [EntryOf(ids[i], TotalsFor(stats, ids[i]))];
    }
  }

  /** The default row agrees with the totals of an empty week, so with no
      repeated member every row holds that member's own week. */
  lemma RowsAreOwnWeeks(ids: seq<string>, weeks: seq<seq<TrackRecord>>, i: int)
    requires |weeks| == |ids| && Distinct(ids) && 0 <= i < |ids|
    ensures TotalsFor(StatsOf(ids, weeks), ids[i]) == WeekTotals(weeks[i])
  {
    StatsOfMembers(ids, weeks);
  }

  // ---------------------------------------------------------------
  // Ordering
  // ---------------------------------------------------------------

  /** The comparator `b.xp - a.xp || b.distance - a.distance`: negative
      when `a` ranks first; the distance difference decides only when the
      XP difference is 0. */
  function Compare(a: Entry, b: Entry): (r: real)
    ensures r < 0.0 <==> a.xp > b.xp || (a.xp == b.xp && a.distance > b.distance)
    ensures r == 0.0 <==> a.xp == b.xp && a.distance == b.distance
  {
    var byXp := (b.xp - a.xp) as real;
    if byXp != 0.0 then byXp else b.distance - a.distance
  }

  /** The comparator is antisymmetric, as `Array.prototype.sort` needs. */
  lemma CompareAntisymmetric(a: Entry, b: Entry)
    ensures Compare(a, b) == -Compare(b, a)
  {
  }

  /** `a` may stand before `b`. */
  predicate RanksFirst(a: Entry, b: Entry) {
    Compare(a, b) <= 0.0
  }

  /** The order is total and transitive. */
  lemma RanksFirstPreorder(a: Entry, b: Entry, c: Entry)
    ensures RanksFirst(a, b) || RanksFirst(b, a)
    ensures RanksFirst(a, b) && RanksFirst(b, c) ==> RanksFirst(a, c)
  {
  }

  predicate Ranked(s: seq<Entry>) {
    forall i, j :: 0 <= i < j < |s| ==> RanksFirst(s[i], s[j])
  }

  /** Put `e` before the first row it ranks ahead of. */
  function Insert(e: Entry, s: seq<Entry>): (r: seq<Entry>)
    requires Ranked(s)
    ensures Ranked(r)
    ensures multiset(r) == multiset(s) + multiset{e}
  {
    if s == [] then [e]
    else if RanksFirst(e, s[0]) then
      assert forall j :: 0 <= j < |s| ==> RanksFirst(e, s[j]) by {
        forall j | 0 <= j < |s| ensures RanksFirst(e, s[j]) {
          RanksFirstPreorder(e, s[0], s[j]);
        }
      }
      [e] + s
    else
      assert s == [s[0]] + s[1..];
      var rest := Insert(e, s[1..]);
      LeadsAll(s, e, rest);
      [s[0]] + rest
  }

  /** The head of a ranked list, placed after `e`, ranks first against
      every row of the list's tail with `e` inserted. */
  lemma LeadsAll(s: seq<Entry>, e: Entry, rest: seq<Entry>)
    requires s != [] && Ranked(s) && !RanksFirst(e, s[0]) && Ranked(rest)
    requires multiset(rest) == multiset(s[1..]) + multiset{e}
    ensures Ranked([s[0]] + rest)
  {
    RanksFirstPreorder(e, s[0], e);
    forall k | 0 <= k < |rest| ensures RanksFirst(s[0], rest[k]) {
      assert rest[k] in multiset(rest);
      if rest[k] != e {
        assert rest[k] in s[1..];
        var j :| 0 <= j < |s[1..]| && s[1..][j] == rest[k];
        assert s[j + 1] == rest[k];
      }
    }
    var r := [s[0]] + rest;
    forall i, j | 0 <= i < j < |r| ensures RanksFirst(r[i], r[j]) {
      if i > 0 {
        assert r[i] == rest[i - 1] && r[j] == rest[j - 1];
      } else {
        assert r[j] == rest[j - 1];
      }
    }
  }

  /** `leaderboard.sort(...)`: a ranked permutation of the rows. */
  function Rank(entries: seq<Entry>): (r: seq<Entry>)
    ensures Ranked(r)
    ensures multiset(r) == multiset(entries)
  {
    if entries == [] then []
    else
      assert entries == [entries[0]] + entries[1..];
      Insert(entries[0], Rank(entries[1..]))
  }

  // ---------------------------------------------------------------
  // One user's leaderboard
  // ---------------------------------------------------------------

  /** The accounts followed, then the user. */
  function SocialCircle(following: seq<string>, userId: string): seq<string> {
    following + [userId]
  }

  /** Sorting keeps every row and adds none. */
  lemma RankKeepsRows(rows: seq<Entry>)
    ensures |Rank(rows)| == |rows|
    ensures forall i :: 0 <= i < |rows| ==> rows[i] in Rank(rows)
  {
    forall i | 0 <= i < |rows| ensures rows[i] in Rank(rows) {
      assert rows[i] in multiset(rows);
    }
    assert |Rank(rows)| == |multiset(Rank(rows))| == |multiset(rows)| == |rows|;
  }

  /** One user's leaderboard, given each circle member's week of tracks:
      one row per member, best first; with no repeated member, each row
      holds that member's own week. */
  method WeeklyLeaderboard(following: seq<string>, userId: string, weeks: seq<seq<TrackRecord>>)
    returns (board: seq<Entry>)
    requires |weeks| == |following| + 1
    ensures Ranked(board)
    ensures |board| == |following| + 1
    ensures var ids := SocialCircle(following, userId);
      forall i :: 0 <= i < |ids| ==> EntryOf(ids[i], TotalsFor(StatsOf(ids, weeks), ids[i])) in board
    ensures var ids := SocialCircle(following, userId);
      Distinct(ids) ==> forall i :: 0 <= i < |ids| ==> EntryOf(ids[i], WeekTotals(weeks[i])) in board
  {
    var ids := SocialCircle(following, userId);
    var stats := CollectWeeklyStats(ids, weeks);
    var rows := Standings(ids, stats);
    board := Rank(rows);
    RankKeepsRows(rows);
    if Distinct(ids) {
      forall i | 0 <= i < |ids| ensures EntryOf(ids[i], WeekTotals(weeks[i])) in board {
        RowsAreOwnWeeks(ids, weeks, i);
        assert rows[i] in board;
      }
    }
  }

  /** The first row has the most XP. */
  lemma LeaderHasMostXp(rows: seq<Entry>)
    requires rows != []
    ensures Rank(rows) != []
    ensures forall e :: e in rows ==> e.xp <= Rank(rows)[0].xp
  {
    var r := Rank(rows);
    assert |r| == |multiset(r)| == |multiset(rows)| == |rows|;
    forall e | e in rows ensures e.xp <= r[0].xp {
      assert e in multiset(rows);
      assert e in r;
      var j :| 0 <= j < |r| && r[j] == e;
      if j > 0 {
        assert RanksFirst(r[0], r[j]);
      }
    }
  }
}
