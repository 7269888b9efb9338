/** The water tracker (`useWater`): a map from day to that day's bucket
    `{ total, entries }` and a daily goal in millilitres; today's intake,
    the progress towards the goal and the zero-filled weekly chart. */
module Water {
  import opened Common
  import opened Seqs

  /** The goal a new tracker starts with, in millilitres. */
  const DefaultDailyGoal: int := 2000

  /** One drink: `{ amount, timestamp }`. */
  datatype WaterEntry = WaterEntry(amount: int, timestamp: Millis)

  /** One day's bucket: `{ total, entries }`. */
  datatype WaterDay = WaterDay(total: int, entries: seq<WaterEntry>)

  /** One point of the weekly chart: `{ date, intake }`. */
  datatype IntakeDay = IntakeDay(date: Day, intake: int)

  function Amount(e: WaterEntry): int { e.amount }

  /** The bucket's cached `total` agrees with its entries. */
  predicate Consistent(w: WaterDay) {
    w.total == Sum(w.entries, Amount)
  }

  predicate AllConsistent(data: map<Day, WaterDay>) {
    forall d :: d in data ==> Consistent(data[d])
  }

  /** `waterData[key] || { total: 0, entries: [] }` */
  function BucketOn(data: map<Day, WaterDay>, d: Day): WaterDay {
    if d in data then data[d] else WaterDay(0, [])
  }

  /** The state after `addWater(amount)` at instant `now` on day `today`. */
  function WithWater(data: map<Day, WaterDay>, today: Day, now: Millis, amount: int): (r: map<Day, WaterDay>)
    ensures today in r
    ensures r[today].total == BucketOn(data, today).total + amount
    ensures r[today].entries == BucketOn(data, today).entries + [WaterEntry(amount, now)]
    ensures forall d :: d != today ==> (d in r <==> d in data)
    ensures forall d :: d != today && d in data ==> r[d] == data[d]
  {
    var current := BucketOn(data, today);
    data[today := WaterDay(current.total + amount, current.entries + [WaterEntry(amount, now)])]
  }

  /** `addWater` keeps every bucket's total equal to the sum of its entries. */
  lemma AddKeepsConsistent(data: map<Day, WaterDay>, today: Day, now: Millis, amount: int)
    requires AllConsistent(data)
    ensures AllConsistent(WithWater(data, today, now, amount))
  {
    var current := BucketOn(data, today);
    SumConcat(current.entries, [WaterEntry(amount, now)], Amount);
  }

  /** `getTodayIntake` on day `today`: 0 when there is no bucket. The weekly
      chart applies the same lookup to each of its seven days (`IntakeOn`). */
  function TodayIntake(data: map<Day, WaterDay>, today: Day): (n: int)
    ensures today !in data ==> n == 0
    ensures AllConsistent(data) && today in data ==> n == Sum(data[today].entries, Amount)
  {
    if today in data then data[today].total else 0
  }

  /** After `addWater(amount)`, today's intake is exactly `amount` higher and
      every other day's is unchanged. */
  lemma AddWaterIntake(data: map<Day, WaterDay>, today: Day, now: Millis, amount: int, d: Day)
    ensures TodayIntake(WithWater(data, today, now, amount), today) == TodayIntake(data, today) + amount
    ensures d != today ==> TodayIntake(WithWater(data, today, now, amount), d) == TodayIntake(data, d)
  {
  }

  /** `getProgress`: `Math.min((intake / dailyGoal) * 100, 100)`, a
      percentage capped at 100. */
  function Progress(intake: int, goal: int): (p: real)
    requires goal != 0
    ensures p <= 100.0
    ensures p < 100.0 ==> p * (goal as real) == (intake as real) * 100.0
    ensures goal > 0 ==> (p == 100.0 <==> intake >= goal)
    ensures goal > 0 && intake >= 0 ==> 0.0 <= p
  {
    var percent := (intake as real / goal as real) * 100.0;
    if percent < 100.0 then percent else 100.0
  }

  /** The weekly chart entry for an arbitrary day `d`: `waterData[key]?.total || 0`,
      the per-day lookup of `TodayIntake` evaluated at `d`. */
  function IntakeOn(data: map<Day, WaterDay>): Day -> IntakeDay {
    d => IntakeDay(d, TodayIntake(data, d))
  }

  /** `getWeeklyData` on day `today`: today - 6 .. today, ascending,
      entry `k` being `IntakeOn(data)(today - 6 + k)` (by `TabulateAt`). */
  function Week(data: map<Day, WaterDay>, today: Day): seq<IntakeDay> {
    Tabulate(today - 6, 7, IntakeOn(data))
  }

  /** A day without a bucket shows zero intake in the chart. */
  lemma WeekZeroFilled(data: map<Day, WaterDay>, today: Day, k: nat)
    requires k < 7 && today - 6 + k !in data
    ensures Week(data, today)[k] == IntakeDay(today - 6 + k, 0)
  {
    TabulateAt(today - 6, 7, IntakeOn(data), k);
  }

  /** The hook's state: `waterData` and `dailyGoal`. */
  class WaterTracker {
    var data: map<Day, WaterDay>
    var dailyGoal: int

    constructor ()
      ensures data == map[] && dailyGoal == DefaultDailyGoal
    {
      data := map[];
      dailyGoal := DefaultDailyGoal;
    }

    /** `addWater(amount)` at instant `now` on day `today`.
        The app reads both from the clock within one call, so it passes
        `today == DayOf(now)` unless the call straddles midnight; no contract
        here depends on that. */
    method AddWater(today: Day, now: Millis, amount: int)
      modifies this
      ensures data == WithWater(old(data), today, now, amount)
      ensures dailyGoal == old(dailyGoal)
    {
      var currentData := BucketOn(data, today);
      var newEntry := WaterEntry(amount, now);
      data := data[today := WaterDay(currentData.total + amount, currentData.entries + [newEntry])];
    }

    /** `updateDailyGoal(newGoal)`: only the goal changes. */
    method UpdateDailyGoal(newGoal: int)
      modifies this
      ensures dailyGoal == newGoal
      ensures data == old(data)
    {
      dailyGoal := newGoal;
    }

    /** `getWeeklyData` on day `today`. */
    method GetWeeklyData(today: Day) returns (week: seq<IntakeDay>)
      ensures week == Week(data, today)
    {
      week := [];
      var i := 6;
      while i >= 0
        invariant -1 <= i <= 6
        invariant week == Tabulate(today - 6, 6 - i, IntakeOn(data))
      {
        var dateKey := today - i;
        var intake := if dateKey in data then data[dateKey].total else 0;
        assert Tabulate(today - 6, 7 - i, IntakeOn(data)) == week + [IntakeOn(data)(today - 6 + (6 - i))];
        week := week + [IntakeDay(dateKey, intake)];
        i := i - 1;
      }
    }
  }
}
