/** The shared helpers: the filter windows 'today' / 'week' / 'month', the
    sleep-duration rule and grouping records by the day they fall on. */
module Helpers {
  import opened Common
  import opened Seqs

  /** The `{ start, end }` pair of instants `getDateRange` returns. */
  datatype DateRange = DateRange(start: Millis, end: Millis)

  /** `getDateRange(range)` at instant `now`: every window ends at the last
      millisecond of today; 'week' starts at midnight seven days back,
      'month' thirty days back, and 'today' or any other value at midnight
      today. */
  function GetDateRange(range: string, now: Millis): (r: DateRange)
    ensures r.end == EndOfDay(now)
    ensures r.start <= now <= r.end
    ensures r.start % MsPerDay == 0
    ensures range == "week" ==> DayOf(r.start) == DayOf(now) - 7
    ensures range == "month" ==> DayOf(r.start) == DayOf(now) - 30
    ensures range != "week" && range != "month" ==> DayOf(r.start) == DayOf(now)
  {
    var today := StartOfDay(now);
    if range == "today" then DateRange(today, EndOfDay(now))
    else if range == "week" then DateRange(SubDays(today, 7), EndOfDay(now))
    else if range == "month" then DateRange(SubDays(today, 30), EndOfDay(now))
    else DateRange(today, EndOfDay(now))
  }

  /** The windows nest: today's lies inside the week's, the week's inside the
      month's, and they all end together. */
  lemma RangesNest(now: Millis)
    ensures GetDateRange("month", now).start < GetDateRange("week", now).start < GetDateRange("today", now).start
    ensures GetDateRange("month", now).end == GetDateRange("week", now).end == GetDateRange("today", now).end
  {
  }

  /** `isWithinInterval(item[dateField], { start, end })`, bounds included. */
  function Within<T>(dateOf: T -> Millis, r: DateRange): T -> bool {
    x => r.start <= dateOf(x) <= r.end
  }

  /** `filterByDateRange(data, range, dateField)`: the records whose instant
      lies in the window, in their original order. */
  function FilterByDateRange<T(!new)>(data: seq<T>, range: string, now: Millis, dateOf: T -> Millis): (r: seq<T>)
    ensures forall x :: x in r <==> x in data && GetDateRange(range, now).start <= dateOf(x) <= GetDateRange(range, now).end
    ensures forall x :: x in data && DayOf(dateOf(x)) == DayOf(now) && dateOf(x) <= now ==> x in r
  {
    Filter(data, Within(dateOf, GetDateRange(range, now)))
  }

  /** The difference `wake - sleep` after the rule "if wake time is before
      sleep time, assume it's the next day", which adds exactly 24 hours. */
  function SleepGap(sleepTime: Millis, wakeTime: Millis): (diff: int)
    ensures diff % MsPerDay == (wakeTime - sleepTime) % MsPerDay
    ensures diff >= 0 <==> sleepTime - wakeTime <= MsPerDay
    ensures diff < MsPerDay <==> wakeTime - sleepTime < MsPerDay
    ensures wakeTime < sleepTime ==> diff == wakeTime - sleepTime + MsPerDay
    ensures sleepTime <= wakeTime ==> diff == wakeTime - sleepTime
  {
    var diff := wakeTime - sleepTime;
    if diff < 0 then diff + 24 * 60 * 60 * 1000 else diff
  }

  /** A multiple of `b` leaves no remainder. */
  lemma ModOfMultiple(k: int, b: int)
    requires b > 0
    ensures (k * b) % b == 0
  {
    var x := k * b;
    var t := k - x / b;
    assert x == b * (x / b) + x % b;
    assert b * t == x % b;
    assert 0 <= b * t < b;
  }

  /** JavaScript's `%`: the remainder carries the sign of the dividend
      (Dafny's `%` never returns a negative value); it differs from the
      dividend by a multiple of the divisor. */
  function JsRem(a: int, b: int): (r: int)
    requires b > 0
    ensures a >= 0 ==> 0 <= r < b
    ensures a < 0 ==> -b < r <= 0
    ensures a >= 0 ==> r == a % b
    ensures (a - r) % b == 0
  {
    if a >= 0 then
      var q := a / b;
      assert a - a % b == q * b;
      ModOfMultiple(q, b);
      a % b
    else
      var q := (-a) / b;
      assert -a == q * b + (-a) % b;
      assert a + (-a) % b == (-q) * b;
      ModOfMultiple(-q, b);
      -((-a) % b)
  }

  /** The `{ hours, minutes, totalHours }` record of `calculateSleepDuration`. */
  datatype SleepDuration = SleepDuration(hours: int, minutes: int, totalHours: real)

  /** `calculateSleepDuration(sleepTime, wakeTime)`: whole hours by
      `Math.floor`, the leftover whole minutes, and hours plus minutes / 60.
      For a gap the 24-hour rule makes non-negative, the minutes lie in
      0..59 and hours and minutes together are the gap in whole minutes. */
  function CalculateSleepDuration(sleepTime: Millis, wakeTime: Millis): (d: SleepDuration)
    ensures d.totalHours == d.hours as real + d.minutes as real / 60.0
    ensures sleepTime - wakeTime <= MsPerDay ==>
      && 0 <= d.minutes <= 59
      && 0 <= d.hours
      && d.hours * 60 + d.minutes == SleepGap(sleepTime, wakeTime) / MsPerMinute
      && d.hours as real <= d.totalHours < d.hours as real + 1.0
    ensures sleepTime - wakeTime <= MsPerDay && wakeTime - sleepTime < MsPerDay ==> d.hours < 24
  {
    var diff := SleepGap(sleepTime, wakeTime);
    var hours := diff / (1000 * 60 * 60);
    var minutes := JsRem(diff, 1000 * 60 * 60) / (1000 * 60);
    assert diff >= 0 ==> diff == hours * MsPerHour + minutes * MsPerMinute + JsRem(diff, MsPerHour) % MsPerMinute;
    SleepDuration(hours, minutes, hours as real + minutes as real / 60.0)
  }

  /** 23:00 to 07:00 is eight hours, whether the wake time carries the next
      day's date or, as entered, the same date. */
  lemma OvernightSleep(midnight: Millis)
    requires midnight % MsPerDay == 0
    ensures CalculateSleepDuration(midnight + 23 * MsPerHour, midnight + MsPerDay + 7 * MsPerHour) == SleepDuration(8, 0, 8.0)
    ensures CalculateSleepDuration(midnight + 23 * MsPerHour, midnight + 7 * MsPerHour) == SleepDuration(8, 0, 8.0)
  {
  }

  /** A wake time more than a day before the sleep time leaves the gap
      negative; `Math.floor` then rounds the hours down while `%` keeps the
      minutes negative, so a gap of minus one minute reads as -1 h -1 min. */
  lemma GapBeyondADay()
    ensures SleepGap(MsPerDay + MsPerMinute, 0) == -MsPerMinute
    ensures CalculateSleepDuration(MsPerDay + MsPerMinute, 0) == SleepDuration(-1, -1, -1.0 - 1.0 / 60.0)
  {
  }

  /** The day key of a record: `format(new Date(item[dateField]), 'yyyy-MM-dd')`. */
  function DayKey<T>(dateOf: T -> Millis): T -> Day {
    x => DayOf(dateOf(x))
  }

  /** The sizes of the groups named in `days`, added up. */
  function GroupSizes<T>(groups: map<Day, seq<T>>, days: seq<Day>): int {
    if days == [] then 0
    else (if days[0] in groups then |groups[days[0]]| else 0) + GroupSizes(groups, days[1..])
  }

  lemma {:induction false} GroupSizesAreCounts<T(!new)>(data: seq<T>, dateOf: T -> Millis, groups: map<Day, seq<T>>, days: seq<Day>)
    requires forall d :: d in days ==> d in groups && groups[d] == Filter(data, KeyIs(DayKey(dateOf), d))
    ensures GroupSizes(groups, days) == SumPerKey(data, DayKey(dateOf), days, One)
  {
    if days != [] {
      assert days[0] in days;
      assert forall d :: d in days[1..] ==> d in days;
      SumOne(Filter(data, KeyIs(DayKey(dateOf), days[0])));
      GroupSizesAreCounts(data, dateOf, groups, days[1..]);
    }
  }

  /** Groups that match the filters, over distinct keys that cover every
      record's day, hold every record exactly once. */
  lemma GroupSizesTotal<T(!new)>(data: seq<T>, dateOf: T -> Millis, groups: map<Day, seq<T>>, days: seq<Day>)
    requires Distinct(days)
    requires forall d :: d in days <==> exists j :: 0 <= j < |data| && DayOf(dateOf(data[j])) == d
    requires forall d :: d in days ==> d in groups && groups[d] == Filter(data, KeyIs(DayKey(dateOf), d))
    ensures forall d :: d in days <==> exists x :: x in data && DayOf(dateOf(x)) == d
    ensures GroupSizes(groups, days) == |data|
  {
    forall x | x in data ensures DayKey(dateOf)(x) in days {
      var j :| 0 <= j < |data| && data[j] == x;
    }
    forall d | d in days ensures exists x :: x in data && DayOf(dateOf(x)) == d {
      var j :| 0 <= j < |data| && DayOf(dateOf(data[j])) == d;
      assert data[j] in data;
    }
    GroupSizesAreCounts(data, dateOf, groups, days);
    SumPerKeyCovers(data, DayKey(dateOf), days, One);
    SumOne(data);
  }

  /** The days of `s`'s records in order of first appearance: scanning
      left to right, a day is appended the first time one of its records
      is seen. */
  function FirstSeen<T>(s: seq<T>, dateOf: T -> Millis): (r: seq<Day>)
    ensures Distinct(r)
  {
    if s == [] then []
    else
      var prev := FirstSeen(s[..|s| - 1], dateOf);
      var d := DayOf(dateOf(s[|s| - 1]));
      if d in prev then prev else prev + [d]
  }

  /** `FirstSeen` lists exactly the days some record falls on. */
  lemma {:induction false} FirstSeenDays<T>(s: seq<T>, dateOf: T -> Millis)
    ensures forall d :: d in FirstSeen(s, dateOf) <==> exists j :: 0 <= j < |s| && DayOf(dateOf(s[j])) == d
  {
    if s != [] {
      var init := s[..|s| - 1];
      FirstSeenDays(init, dateOf);
      forall d ensures d in FirstSeen(s, dateOf) <==> exists j :: 0 <= j < |s| && DayOf(dateOf(s[j])) == d {
        if exists j :: 0 <= j < |s| && DayOf(dateOf(s[j])) == d {
          var j :| 0 <= j < |s| && DayOf(dateOf(s[j])) == d;
          if j < |s| - 1 {
            assert DayOf(dateOf(init[j])) == d;
          }
        }
        if d in FirstSeen(init, dateOf) {
          var j :| 0 <= j < |init| && DayOf(dateOf(init[j])) == d;
          assert DayOf(dateOf(s[j])) == d;
        }
      }
    }
  }

  /** A day not yet seen has no records, so its group starts empty. */
  lemma UnseenDayEmpty<T(!new)>(s: seq<T>, dateOf: T -> Millis, d: Day)
    requires d !in FirstSeen(s, dateOf)
    ensures Filter(s, KeyIs(DayKey(dateOf), d)) == []
  {
    FirstSeenDays(s, dateOf);
    forall x | x in s ensures !KeyIs(DayKey(dateOf), d)(x) {
      var j :| 0 <= j < |s| && s[j] == x;
      assert KeyIs(DayKey(dateOf), d)(x) == (DayOf(dateOf(x)) == d);
    }
    FilterNone(s, KeyIs(DayKey(dateOf), d));
  }

  /** One more record appends its day unless that day was already seen. */
  lemma FirstSeenStep<T>(s: seq<T>, x: T, dateOf: T -> Millis)
    ensures FirstSeen(s + [x], dateOf) ==
      if DayOf(dateOf(x)) in FirstSeen(s, dateOf) then FirstSeen(s, dateOf)
      else FirstSeen(s, dateOf) + [DayOf(dateOf(x))]
  {
    assert (s + [x])[..|s + [x]| - 1] == s;
  }

  /** `FirstSeen` lists each day at the point of its first record: day `k`
      is the day of some record `s[p]`, and the records before `p` show
      exactly the days listed before `k`. */
  lemma {:induction false} FirstSeenOrder<T>(s: seq<T>, dateOf: T -> Millis, k: nat)
    requires k < |FirstSeen(s, dateOf)|
    ensures exists p :: (0 <= p < |s| && DayOf(dateOf(s[p])) == FirstSeen(s, dateOf)[k] &&
                         FirstSeen(s[..p], dateOf) == FirstSeen(s, dateOf)[..k])
  {
    var init := s[..|s| - 1];
    var prev := FirstSeen(init, dateOf);
    var r := FirstSeen(s, dateOf);
    if k < |prev| {
      FirstSeenOrder(init, dateOf, k);
      var p :| 0 <= p < |init| && DayOf(dateOf(init[p])) == prev[k] && FirstSeen(init[..p], dateOf) == prev[..k];
      assert init[..p] == s[..p];
      assert r[k] == prev[k] && r[..k] == prev[..k];
      assert DayOf(dateOf(s[p])) == r[k];
    } else {
      assert s[..|s| - 1] == init;
      assert r == prev + [DayOf(dateOf(s[|s| - 1]))];
      assert r[..k] == prev;
    }
  }

  /** One pass of the grouping loop over record `i`: a day seen for the
      first time gets an empty group and joins the list of days, then the
      record is pushed onto its day's group. The days stay the days seen in
      first-appearance order and every group stays its day's filter. */
  lemma GroupLoopStep<T(!new)>(data: seq<T>, dateOf: T -> Millis, i: nat,
                               days: seq<Day>, groups: map<Day, seq<T>>,
                               days': seq<Day>, groups': map<Day, seq<T>>)
    requires i < |data|
    requires days == FirstSeen(data[..i], dateOf)
    requires forall d :: d in groups <==> d in days
    requires forall d :: d in groups ==> groups[d] == Filter(data[..i], KeyIs(DayKey(dateOf), d))
    requires days' == if DayOf(dateOf(data[i])) in groups then days else days + [DayOf(dateOf(data[i]))]
    requires DayOf(dateOf(data[i])) in groups'
    requires groups'[DayOf(dateOf(data[i]))] ==
      (if DayOf(dateOf(data[i])) in groups then groups[DayOf(dateOf(data[i]))] else []) + [data[i]]
    requires forall d :: d != DayOf(dateOf(data[i])) ==> (d in groups' <==> d in groups)
    requires forall d :: d != DayOf(dateOf(data[i])) && d in groups ==> groups'[d] == groups[d]
    ensures days' == FirstSeen(data[..i + 1], dateOf)
    ensures forall d :: d in groups' <==> d in days'
    ensures forall d :: d in groups' ==> groups'[d] == Filter(data[..i + 1], KeyIs(DayKey(dateOf), d))
  {
    var item := data[i];
    var date := DayOf(dateOf(item));
    assert data[..i + 1] == data[..i] + [item];
    FirstSeenStep(data[..i], item, dateOf);
    if date !in groups {
      UnseenDayEmpty(data[..i], dateOf, date);
    }
    forall d | d in groups' ensures groups'[d] == Filter(data[..i + 1], KeyIs(DayKey(dateOf), d)) {
      FilterConcat(data[..i], [item], KeyIs(DayKey(dateOf), d));
      assert Filter([item], KeyIs(DayKey(dateOf), d)) == if date == d then [item] else [];
    }
  }

  /** `groupByDate(data, dateField)`: one group per day, holding that day's
      records in input order; `days` lists the groups' keys in the order the
      object acquired them (first appearance). Every record lands in exactly
      one group, so the group sizes add up to the input length. */
  method GroupByDate<T(!new)>(data: seq<T>, dateOf: T -> Millis) returns (days: seq<Day>, groups: map<Day, seq<T>>)
    ensures days == FirstSeen(data, dateOf)
    ensures forall d :: d in days <==> exists x :: x in data && DayOf(dateOf(x)) == d
    ensures forall d :: d in groups <==> d in days
    ensures forall d :: d in groups ==> groups[d] == Filter(data, KeyIs(DayKey(dateOf), d))
    ensures GroupSizes(groups, days) == |data|
  {
    days, groups := [], map[];
    var i := 0;
    while i < |data|
      invariant 0 <= i <= |data|
      invariant days == FirstSeen(data[..i], dateOf)
      invariant forall d :: d in groups <==> d in days
      invariant forall d :: d in groups ==> groups[d] == Filter(data[..i], KeyIs(DayKey(dateOf), d))
    {
      ghost var days0, groups0 := days, groups;
      var item := data[i];
      var date := DayOf(dateOf(item));
      if date !in groups {
        groups := groups[date := []];
        days := days + [date];
      }
      groups := groups[date := groups[date] + [item]];
      GroupLoopStep(data, dateOf, i, days0, groups0, days, groups);
      i := i + 1;
    }
    assert data[..i] == data;
    FirstSeenDays(data, dateOf);
    GroupSizesTotal(data, dateOf, groups, days);
  }
}
