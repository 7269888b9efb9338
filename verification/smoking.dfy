/** The smoking tracker (`useSmoking`): a map from day to that day's bucket
    `{ count, timestamps }`, plus an optional quit date; today's count and
    entries, the zero-filled weekly chart, the smoke-free streak and the days
    since quitting. */
module Smoking {
  import opened Common
  import opened Seqs

  /** One day's bucket: `{ count, timestamps }`. */
  datatype DayLog = DayLog(count: int, timestamps: seq<Millis>)

  /** One point of the weekly chart: `{ date, count }`. */
  datatype SmokeDay = SmokeDay(date: Day, count: int)

  /** The bucket's cached `count` agrees with its list of timestamps. */
  predicate Consistent(b: DayLog) {
    b.count == |b.timestamps|
  }

  predicate AllConsistent(data: map<Day, DayLog>) {
    forall d :: d in data ==> Consistent(data[d])
  }

  /** `smokingData[key] || { count: 0, timestamps: [] }` */
  function LogOf(data: map<Day, DayLog>, d: Day): DayLog {
    if d in data then data[d] else DayLog(0, [])
  }

  /** The state after `addSmoke` at instant `now` on day `today`. */
  function WithSmoke(data: map<Day, DayLog>, today: Day, now: Millis): (r: map<Day, DayLog>)
    ensures today in r
    ensures r[today].count == LogOf(data, today).count + 1
    ensures r[today].timestamps == LogOf(data, today).timestamps + [now]
    ensures forall d :: d != today ==> (d in r <==> d in data)
    ensures forall d :: d != today && d in data ==> r[d] == data[d]
  {
    var current := LogOf(data, today);
    data[today := DayLog(current.count + 1, current.timestamps + [now])]
  }

  /** `addSmoke` keeps every bucket consistent. */
  lemma AddKeepsConsistent(data: map<Day, DayLog>, today: Day, now: Millis)
    requires AllConsistent(data)
    ensures AllConsistent(WithSmoke(data, today, now))
  {
  }

  /** `t !== timestamp` */
  function Differs(timestamp: Millis): Millis -> bool {
    t => t != timestamp
  }

  /** The state after `removeSmoke(timestamp)` on day `today`: nothing when
      today has no bucket; otherwise today's list loses every copy of
      `timestamp` and the count is recomputed from what is left. */
  function WithoutSmoke(data: map<Day, DayLog>, today: Day, timestamp: Millis): (r: map<Day, DayLog>)
    ensures today !in data ==> r == data
    ensures today in data ==>
      && today in r
      && Consistent(r[today])
      && |r[today].timestamps| <= |data[today].timestamps|
      && timestamp !in r[today].timestamps
      && (forall t :: t in r[today].timestamps <==> t in data[today].timestamps && t != timestamp)
    ensures forall d :: d != today ==> (d in r <==> d in data)
    ensures forall d :: d != today && d in data ==> r[d] == data[d]
  {
    if today !in data then data
    else
      var updated := Filter(data[today].timestamps, Differs(timestamp));
      data[today := DayLog(|updated|, updated)]
  }

  /** `removeSmoke` re-establishes the bucket invariant even on a bucket that
      had lost it, and keeps it everywhere else. */
  lemma RemoveRestoresConsistent(data: map<Day, DayLog>, today: Day, timestamp: Millis)
    requires forall d :: d in data && d != today ==> Consistent(data[d])
    ensures AllConsistent(WithoutSmoke(data, today, timestamp))
  {
  }

  /** Removing a timestamp that was just added, and that the day did not
      already hold, gives back the original state. */
  lemma RemoveUndoesAdd(data: map<Day, DayLog>, today: Day, now: Millis)
    requires today in data && Consistent(data[today])
    requires now !in data[today].timestamps
    ensures WithoutSmoke(WithSmoke(data, today, now), today, now) == data
  {
    var ts := data[today].timestamps;
    FilterConcat(ts, [now], Differs(now));
    FilterAll(ts, Differs(now));
    assert Filter([now], Differs(now)) == [];
    var added := WithSmoke(data, today, now);
    assert added[today].timestamps == ts + [now];
    assert Filter(added[today].timestamps, Differs(now)) == ts;
    assert DayLog(|ts|, ts) == data[today];
    assert data[today := data[today]] == data;
  }

  /** On a day that had no bucket, removing the just-added timestamp leaves
      an empty bucket behind: that bucket is the only change. */
  lemma RemoveAfterAddOnFreshDay(data: map<Day, DayLog>, today: Day, now: Millis)
    requires today !in data
    ensures WithoutSmoke(WithSmoke(data, today, now), today, now) == data[today := DayLog(0, [])]
  {
    assert Filter([now], Differs(now)) == [];
  }

  /** `getTodayCount` on day `today`: 0 when there is no bucket. The weekly
      chart applies the same lookup to each of its seven days (`CountOn`). */
  function TodayCount(data: map<Day, DayLog>, today: Day): (n: int)
    ensures today !in data ==> n == 0
    ensures AllConsistent(data) ==> n == |TodayEntries(data, today)|
  {
    if today in data then data[today].count else 0
  }

  /** `getTodayEntries` on day `today`: `[]` when there is no bucket. */
  function TodayEntries(data: map<Day, DayLog>, today: Day): (ts: seq<Millis>)
    ensures today !in data ==> ts == []
  {
    if today in data then data[today].timestamps else []
  }

  /** After `addSmoke`, today's count is one higher and its entries end with
      the new instant. */
  lemma AddSmokeToday(data: map<Day, DayLog>, today: Day, now: Millis)
    ensures TodayCount(WithSmoke(data, today, now), today) == TodayCount(data, today) + 1
    ensures TodayEntries(WithSmoke(data, today, now), today) == TodayEntries(data, today) + [now]
  {
  }

  /** `smokingData[key]?.count > 0`: a cigarette was logged on day `d`. */
  predicate Smoked(data: map<Day, DayLog>, d: Day) {
    d in data && data[d].count > 0
  }

  /** Counting back from day `from`, the number of days (at most `budget`)
      before the first day with a positive count. */
  function CleanRun(data: map<Day, DayLog>, from: Day, budget: nat): (k: nat)
    ensures k <= budget
    ensures forall d :: from - k < d <= from ==> !Smoked(data, d)
    ensures k < budget ==> Smoked(data, from - k)
    decreases budget
  {
    if budget == 0 || Smoked(data, from) then 0 else 1 + CleanRun(data, from - 1, budget - 1)
  }

  /** A clean run is determined by where it stops. */
  lemma {:induction false} CleanRunIs(data: map<Day, DayLog>, from: Day, budget: nat, k: nat)
    requires k <= budget
    requires forall d :: from - k < d <= from ==> !Smoked(data, d)
    requires k < budget ==> Smoked(data, from - k)
    ensures CleanRun(data, from, budget) == k
    decreases k
  {
    if k > 0 {
      assert !Smoked(data, from);
      CleanRunIs(data, from - 1, budget - 1, k - 1);
    }
  }

  /** How far back `getStreak` looks. */
  const StreakLimit: nat := 365

  /** The weekly chart entry for an arbitrary day `d`: `smokingData[key]?.count || 0`,
      the per-day lookup of `TodayCount` evaluated at `d`. */
  function CountOn(data: map<Day, DayLog>): Day -> SmokeDay {
    d => SmokeDay(d, TodayCount(data, d))
  }

  /** `getWeeklyData` on day `today`: today - 6 .. today, ascending,
      entry `k` being `CountOn(data)(today - 6 + k)` (by `TabulateAt`). */
  function Week(data: map<Day, DayLog>, today: Day): seq<SmokeDay> {
    Tabulate(today - 6, 7, CountOn(data))
  }

  /** A day without a bucket shows a zero count in the chart. */
  lemma WeekZeroFilled(data: map<Day, DayLog>, today: Day, k: nat)
    requires k < 7 && today - 6 + k !in data
    ensures Week(data, today)[k] == SmokeDay(today - 6 + k, 0)
  {
    TabulateAt(today - 6, 7, CountOn(data), k);
  }

  /** `getDaysSinceQuit` at instant `now`: 0 without a quit date, otherwise
      the whole days elapsed since it (negative for a date in the future). */
  function DaysSinceQuit(quitDate: Option<Millis>, now: Millis): (n: int)
    ensures quitDate == None ==> n == 0
    ensures quitDate.Some? && quitDate.value <= now ==>
      0 <= n && n * MsPerDay <= now - quitDate.value < n * MsPerDay + MsPerDay
    ensures quitDate.Some? && now <= quitDate.value ==>
      n <= 0 && -n * MsPerDay <= quitDate.value - now < -n * MsPerDay + MsPerDay
  {
    match quitDate
    case None => 0
    case Some(q) => DifferenceInDays(now, q)
  }

  /** The hook's state: `smokingData` and `quitDate`. */
  class SmokingTracker {
    var data: map<Day, DayLog>
    var quitDate: Option<Millis>

    constructor ()
      ensures data == map[] && quitDate == None
    {
      data := map[];
      quitDate := None;
    }

    /** `addSmoke` at instant `now` on day `today`.
        The app reads both from the clock within one call, so it passes
        `today == DayOf(now)` unless the call straddles midnight; no contract
        here depends on that. */
    method AddSmoke(today: Day, now: Millis)
      modifies this
      ensures data == WithSmoke(old(data), today, now)
      ensures quitDate == old(quitDate)
    {
      var currentData := LogOf(data, today);
      data := data[today := DayLog(currentData.count + 1, currentData.timestamps + [now])];
    }

    /** `removeSmoke(timestamp)` on day `today`. */
    method RemoveSmoke(today: Day, timestamp: Millis)
      modifies this
      ensures data == WithoutSmoke(old(data), today, timestamp)
      ensures quitDate == old(quitDate)
    {
      if today !in data {
        return;
      }
      var updatedTimestamps := Filter(data[today].timestamps, Differs(timestamp));
      data := data[today := DayLog(|updatedTimestamps|, updatedTimestamps)];
    }

    /** `setQuitting(date)` */
    method SetQuitting(date: Option<Millis>)
      modifies this
      ensures quitDate == date
      ensures data == old(data)
    {
      quitDate := date;
    }

    /** `getWeeklyData` on day `today`. */
    method GetWeeklyData(today: Day) returns (week: seq<SmokeDay>)
      ensures week == Week(data, today)
    {
      week := [];
      var i := 6;
      while i >= 0
        invariant -1 <= i <= 6
        invariant week == Tabulate(today - 6, 6 - i, CountOn(data))
      {
        var dateKey := today - i;
        var count := if dateKey in data then data[dateKey].count else 0;
        assert Tabulate(today - 6, 7 - i, CountOn(data)) == week + [CountOn(data)(today - 6 + (6 - i))];
        week := week + [SmokeDay(dateKey, count)];
        i := i - 1;
      }
    }

    /** `getStreak` on day `today`: the smoke-free days counted back from
        today, stopping at the first day with a positive count, at most 365. */
    method GetStreak(today: Day) returns (streak: nat)
      ensures streak == CleanRun(data, today, StreakLimit)
      ensures streak <= StreakLimit
      ensures Smoked(data, today) ==> streak == 0
    {
      streak := 0;
      var i := 0;
      while i < StreakLimit
        invariant 0 <= i <= StreakLimit
        invariant streak == i
        invariant forall d :: today - i < d <= today ==> !Smoked(data, d)
      {
        var dateKey := today - i;
        if dateKey in data && data[dateKey].count > 0 {
          break;
        }
        streak := streak + 1;
        i := i + 1;
      }
      CleanRunIs(data, today, StreakLimit, streak);
    }
  }
}
