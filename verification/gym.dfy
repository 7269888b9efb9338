/** The gym tracker (`useGym`): a list of sessions, newest first, each dated
    by the day it was logged; today's total, the average length, the
    consecutive-day streak and the trailing seven-day chart. */
module Gym {
  import opened Common
  import opened Seqs

  /** One logged session: `{ id, date, duration, notes, timestamp }`, with
      `duration` in minutes. */
  datatype Session = Session(id: int, date: Day, duration: int, notes: string, timestamp: Millis)

  /** One point of the weekly chart: `{ date, sessions, duration }`. */
  datatype GymDay = GymDay(date: Day, sessions: nat, duration: int)

  function SessionId(s: Session): int { s.id }
  function Minutes(s: Session): int { s.duration }
  function MinutesReal(s: Session): real { s.duration as real }
  function DayCount(g: GymDay): int { g.sessions }

  /** `session.date === dateKey` */
  function OnDay(d: Day): Session -> bool {
    (s: Session) => s.date == d
  }

  /** The session falls on a day in [lo, hi]. */
  function Between(lo: Day, hi: Day): Session -> bool {
    (s: Session) => lo <= s.date <= hi
  }

  /** `getTodaySessions` for day `d`: the sessions dated `d`, in list order. */
  function SessionsOn(sessions: seq<Session>, d: Day): (r: seq<Session>)
    ensures forall s :: s in r <==> s in sessions && s.date == d
  {
    Filter(sessions, OnDay(d))
  }

  /** `getTodayDuration` for day `d`: the minutes of the sessions dated `d`.
      With no negative durations, it is at most the minutes of all sessions. */
  function DurationOn(sessions: seq<Session>, d: Day): (r: int)
    ensures (forall s :: s in sessions ==> 0 <= s.duration) ==> 0 <= r <= Sum(sessions, Minutes)
  {
    assert (forall s :: s in sessions ==> 0 <= s.duration) ==>
      0 <= Sum(SessionsOn(sessions, d), Minutes) <= Sum(sessions, Minutes) by {
      if forall s :: s in sessions ==> 0 <= s.duration {
        SumFilterBounds(sessions, OnDay(d), Minutes);
      }
    }
    Sum(SessionsOn(sessions, d), Minutes)
  }

  /** A new session adds its minutes to its own day's total and to no other. */
  lemma DurationOnCons(s: Session, sessions: seq<Session>, d: Day)
    ensures DurationOn([s] + sessions, d) == DurationOn(sessions, d) + (if s.date == d then s.duration else 0)
  {
    assert ([s] + sessions)[1..] == sessions;
    SumConcat(if s.date == d then [s] else [], SessionsOn(sessions, d), Minutes);
  }

  /** A day without sessions totals zero minutes. */
  lemma DurationOnEmptyDay(sessions: seq<Session>, d: Day)
    requires forall s :: s in sessions ==> s.date != d
    ensures DurationOn(sessions, d) == 0
  {
    FilterNone(sessions, OnDay(d));
  }

  /** `getAverageDuration`: 0 for no sessions, else total minutes / count. */
  function AverageDuration(sessions: seq<Session>): (r: real)
    ensures sessions == [] ==> r == 0.0
    ensures sessions != [] ==> r * (|sessions| as real) == Sum(sessions, Minutes) as real
  {
    SumRealOfInts(sessions, Minutes, MinutesReal);
    Mean(sessions, MinutesReal)
  }

  /** The average lies between the shortest and the longest session. */
  lemma AverageWithin(sessions: seq<Session>, lo: int, hi: int)
    requires sessions != []
    requires forall s :: s in sessions ==> lo <= s.duration <= hi
    ensures lo as real <= AverageDuration(sessions) <= hi as real
  {
    MeanBounds(sessions, MinutesReal, lo as real, hi as real);
  }

  /** The days that have at least one session. */
  function Dates(sessions: seq<Session>): set<Day> {
    set s | s in sessions :: s.date
  }

  /** The most recent session day. */
  function LatestDate(sessions: seq<Session>): (m: Day)
    requires sessions != []
    ensures m in Dates(sessions)
    ensures forall s :: s in sessions ==> s.date <= m
  {
    if |sessions| == 1 then sessions[0].date
    else
      var rest := LatestDate(sessions[1..]);
      assert forall s :: s in sessions[1..] ==> s in sessions;
      assert forall s :: s in sessions ==> s == sessions[0] || s in sessions[1..];
      if sessions[0].date >= rest then sessions[0].date else rest
  }

  predicate StrictlyDescending(u: seq<Day>) {
    forall i, j :: 0 <= i < j < |u| ==> u[i] > u[j]
  }

  /** Adds `d` to a strictly descending list of days unless it is already there. */
  function InsertDescending(u: seq<Day>, d: Day): (r: seq<Day>)
    requires StrictlyDescending(u)
    ensures StrictlyDescending(r)
    ensures forall x :: x in r <==> x in u || x == d
    ensures r != [] && (u != [] ==> r[0] >= u[0])
  {
    if u == [] then [d]
    else if d == u[0] then u
    else if d > u[0] then [d] + u
    else [u[0]] + InsertDescending(u[1..], d)
  }

  /** `[...new Set(sessions.map(s => s.date))].sort((a, b) => b.localeCompare(a))`:
      each session day once, most recent first. */
  function UniqueDatesDescending(sessions: seq<Session>): (u: seq<Day>)
    ensures StrictlyDescending(u)
    ensures forall d :: d in u <==> d in Dates(sessions)
  {
    if sessions == [] then []
    else
      assert forall s :: s in sessions ==> s == sessions[0] || s in sessions[1..];
      InsertDescending(UniqueDatesDescending(sessions[1..]), sessions[0].date)
  }

  /** The number of consecutive days `top`, `top - 1`, ... that are all in `ds`. */
  function RunLength(ds: set<Day>, top: Day): (k: nat)
    ensures k <= |ds|
    ensures forall d :: top - k < d <= top ==> d in ds
    ensures top - k !in ds
    decreases |ds|
  {
    if top in ds then
      var k := RunLength(ds - {top}, top - 1);
      assert forall d :: top - 1 - k < d <= top ==> d in ds by {
        forall d | top - 1 - k < d <= top ensures d in ds {
          if d != top {
            assert d in ds - {top};
          }
        }
      }
      1 + k
    else 0
  }

  /** A run is determined by where it stops. */
  lemma RunLengthIs(ds: set<Day>, top: Day, k: nat)
    requires forall d :: top - k < d <= top ==> d in ds
    requires top - k !in ds
    ensures RunLength(ds, top) == k
  {
    var r := RunLength(ds, top);
    assert top - r in ds || !(top - k < top - r <= top);
    assert top - k in ds || !(top - r < top - k <= top);
  }

  /** `getCurrentStreak`: 0 without sessions or when the most recent session
      day is more than one day before today; otherwise the number of
      consecutive days ending at the most recent session day. A streak whose
      last day is yesterday still counts (the one-day grace period). */
  function Streak(sessions: seq<Session>, today: Day): (k: nat)
    ensures k <= |Dates(sessions)|
    ensures sessions == [] ==> k == 0
    ensures sessions != [] && today - LatestDate(sessions) > 1 ==> k == 0
    ensures sessions != [] && today - LatestDate(sessions) <= 1 ==>
      && 1 <= k
      && (forall d :: LatestDate(sessions) - k < d <= LatestDate(sessions) ==> d in Dates(sessions))
      && LatestDate(sessions) - k !in Dates(sessions)
  {
    if sessions == [] then 0
    else
      var top := LatestDate(sessions);
      if today - top > 1 then 0 else RunLength(Dates(sessions), top)
  }

  /** A session dated `d` (the other fields do not matter to the streak). */
  function On(d: Day): Session {
    Session(0, d, 30, "", 0)
  }

  /** Sessions today and on the two days before give a streak of 3. */
  lemma StreakOfThree(today: Day)
    ensures Streak([On(today), On(today - 1), On(today - 2)], today) == 3
  {
    var a := [On(today), On(today - 1), On(today - 2)];
    assert Dates(a) == {today, today - 1, today - 2} by {
      assert On(today) in a && On(today - 1) in a && On(today - 2) in a;
    }
    assert LatestDate(a) == today;
    RunLengthIs(Dates(a), today, 3);
  }

  /** Sessions on the three days before today still give a streak of 3
      (the grace day). */
  lemma StreakEndingYesterday(today: Day)
    ensures Streak([On(today - 1), On(today - 2), On(today - 3)], today) == 3
  {
    var b := [On(today - 1), On(today - 2), On(today - 3)];
    assert Dates(b) == {today - 1, today - 2, today - 3} by {
      assert On(today - 1) in b && On(today - 2) in b && On(today - 3) in b;
    }
    assert LatestDate(b) == today - 1;
    RunLengthIs(Dates(b), today - 1, 3);
  }

  /** A single session two days ago gives no streak. */
  lemma StaleStreak(today: Day)
    ensures Streak([On(today - 2)], today) == 0
  {
  }

  /** The walk over the strictly descending days stops exactly where the run
      of consecutive days from the most recent one ends. */
  lemma RunOfDescendingDates(u: seq<Day>, ds: set<Day>, i: nat)
    requires StrictlyDescending(u)
    requires forall d :: d in u <==> d in ds
    requires 1 <= i <= |u|
    requires forall j :: 0 <= j < i ==> u[j] == u[0] - j
    requires i == |u| || u[i - 1] - u[i] != 1
    ensures RunLength(ds, u[0]) == i
  {
    forall d | u[0] - i < d <= u[0] ensures d in ds {
      assert u[u[0] - d] in u;
    }
    forall m | 0 <= m < |u| ensures u[m] != u[0] - i {
      if m < i {
        assert u[m] == u[0] - m;
      } else if m > i {
        assert u[m] < u[i] < u[i - 1];
      } else {
        assert u[i] < u[i - 1];
      }
    }
    RunLengthIs(ds, u[0], i);
  }

  /** `getWeeklyData`'s entry for day `d`: the day's session count and minutes. */
  function DayBucket(sessions: seq<Session>, d: Day): GymDay {
    GymDay(d, |SessionsOn(sessions, d)|, DurationOn(sessions, d))
  }

  /** A day without sessions shows zero sessions and zero minutes. */
  lemma EmptyDayBucket(sessions: seq<Session>, d: Day)
    requires forall s :: s in sessions ==> s.date != d
    ensures DayBucket(sessions, d) == GymDay(d, 0, 0)
  {
    FilterNone(sessions, OnDay(d));
  }

  /** The bucket of each day, as a function of the day. */
  function BucketOf(sessions: seq<Session>): Day -> GymDay {
    d => DayBucket(sessions, d)
  }

  /** The buckets of the `n` consecutive days starting at `from`, in
      ascending order (entry `k` is day `from + k`, by `TabulateAt`). */
  function Series(sessions: seq<Session>, from: Day, n: nat): seq<GymDay> {
    Tabulate(from, n, BucketOf(sessions))
  }

  /** The sessions in [lo, hi] are those in [lo, hi - 1] and those on `hi`. */
  lemma {:induction false} CountSplit(sessions: seq<Session>, lo: Day, hi: Day)
    requires lo <= hi
    ensures |Filter(sessions, Between(lo, hi))| == |Filter(sessions, Between(lo, hi - 1))| + |Filter(sessions, OnDay(hi))|
  {
    if sessions != [] {
      var s, rest := sessions[0], sessions[1..];
      CountSplit(rest, lo, hi);
      assert Filter(sessions, Between(lo, hi)) == (if lo <= s.date <= hi then [s] else []) + Filter(rest, Between(lo, hi));
      assert Filter(sessions, Between(lo, hi - 1)) == (if lo <= s.date <= hi - 1 then [s] else []) + Filter(rest, Between(lo, hi - 1));
      assert Filter(sessions, OnDay(hi)) == (if s.date == hi then [s] else []) + Filter(rest, OnDay(hi));
    }
  }

  /** The chart's session counts add up to the number of sessions dated
      within its days. */
  lemma {:induction false} SeriesCounts(sessions: seq<Session>, from: Day, n: nat)
    ensures Sum(Series(sessions, from, n), DayCount) == |Filter(sessions, Between(from, from + n - 1))|
  {
    if n == 0 {
      FilterNone(sessions, Between(from, from - 1));
    } else {
      var hi := from + n - 1;
      var prev := Series(sessions, from, n - 1);
      var last := DayBucket(sessions, hi);
      assert Series(sessions, from, n) == prev + [BucketOf(sessions)(hi)];
      SeriesCounts(sessions, from, n - 1);
      assert Sum(prev, DayCount) == |Filter(sessions, Between(from, hi - 1))|;
      SumConcat(prev, [last], DayCount);
      assert Sum([last], DayCount) == |Filter(sessions, OnDay(hi))|;
      CountSplit(sessions, from, hi);
    }
  }

  /** The hook's state: the `sessions` list, newest first. */
  class GymTracker {
    var sessions: seq<Session>

    constructor ()
      ensures sessions == []
    {
      sessions := [];
    }

    /** `addGymSession(duration, notes = '')` at instant `now` on day `today`,
        with `id` the fresh id: the new session goes in front.
        The app reads both from the clock within one call, so it passes
        `today == DayOf(now)` unless the call straddles midnight; no contract
        here depends on that. */
    method AddGymSession(id: int, today: Day, now: Millis, duration: int, notes: string := "")
      modifies this
      ensures sessions == [Session(id, today, duration, notes, now)] + old(sessions)
    {
      var newSession := Session(id, today, duration, notes, now);
      sessions := [newSession] + sessions;
    }

    /** `deleteGymSession(id)`: keeps every session with another id, in order. */
    method DeleteGymSession(id: int)
      modifies this
      ensures sessions == RemoveKey(old(sessions), SessionId, id)
    {
      sessions := RemoveKey(sessions, SessionId, id);
    }

    /** `getCurrentStreak` on day `today`. */
    method GetCurrentStreak(today: Day) returns (streak: nat)
      ensures streak == Streak(sessions, today)
    {
      if |sessions| == 0 {
        return 0;
      }
      var uniqueDates := UniqueDatesDescending(sessions);
      assert sessions[0] in sessions;
      assert sessions[0].date in uniqueDates;
      var mostRecentDate := uniqueDates[0];
      assert mostRecentDate == LatestDate(sessions) by {
        assert LatestDate(sessions) in uniqueDates;
        assert mostRecentDate in Dates(sessions);
      }
      var daysDiff := today - mostRecentDate;
      if daysDiff > 1 {
        return 0;
      }
      streak := 1;
      var i := 1;
      while i < |uniqueDates|
        invariant 1 <= i <= |uniqueDates|
        invariant streak == i
        invariant forall j :: 0 <= j < i ==> uniqueDates[j] == mostRecentDate - j
      {
        var diff := uniqueDates[i - 1] - uniqueDates[i];
        if diff == 1 {
          streak := streak + 1;
        } else {
          break;
        }
        i := i + 1;
      }
      RunOfDescendingDates(uniqueDates, Dates(sessions), streak);
    }

    /** `getWeeklyData` on day `today`: the seven days today - 6 .. today in
        ascending order, each with its session count and minutes. */
    method GetWeeklyData(today: Day) returns (week: seq<GymDay>)
      ensures week == Series(sessions, today - 6, 7)
    {
      week := [];
      var i := 6;
      while i >= 0
        invariant -1 <= i <= 6
        invariant week == Series(sessions, today - 6, 6 - i)
      {
        var dateKey := today - i;
        var daySessions := Filter(sessions, OnDay(dateKey));
        var totalDuration := Sum(daySessions, Minutes);
        assert GymDay(dateKey, |daySessions|, totalDuration) == DayBucket(sessions, today - 6 + (6 - i));
        assert Series(sessions, today - 6, 7 - i) == week + [BucketOf(sessions)(today - 6 + (6 - i))];
        week := week + [GymDay(dateKey, |daySessions|, totalDuration)];
        i := i - 1;
      }
    }

    /** `getWeeklySessions` on day `today`: the number of sessions dated in
        the trailing seven days. */
    method GetWeeklySessions(today: Day) returns (total: int)
      ensures total == |Filter(sessions, Between(today - 6, today))|
    {
      var week := GetWeeklyData(today);
      total := Sum(week, DayCount);
      SeriesCounts(sessions, today - 6, 7);
    }
  }
}
