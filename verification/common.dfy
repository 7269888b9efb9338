/** Vocabulary shared by every tracker: optional values, calendar days and the
    millisecond clock that stands in for JavaScript `Date` objects. */
module Common {

  /** A value that may be absent (`undefined`, `null` or an empty form field). */
  datatype Option<+T> = None | Some(value: T) {
    /** The value, or `default` when absent (the `x || default` idiom). */
    function GetOr(default: T): T {
      match this
      case Some(v) => v
      case None => default
    }
  }

  /** A calendar day, counted in whole days: the model of a 'yyyy-MM-dd' key. */
  type Day = int

  /** An instant, in whole milliseconds since the epoch: the model of an ISO timestamp. */
  type Millis = int

  const MsPerMinute: int := 60_000
  const MsPerHour: int := 3_600_000
  const MsPerDay: int := 86_400_000

  /** The day an instant falls on (one fixed time zone, no daylight saving). */
  function DayOf(t: Millis): (d: Day)
    ensures d * MsPerDay <= t < d * MsPerDay + MsPerDay
  {
    t / MsPerDay
  }

  /** `startOfDay`: midnight of the day `t` falls on. */
  function StartOfDay(t: Millis): (r: Millis)
    ensures r <= t < r + MsPerDay
    ensures DayOf(r) == DayOf(t)
  {
    DayOf(t) * MsPerDay
  }

  /** `endOfDay`: the last millisecond (23:59:59.999) of the day `t` falls on. */
  function EndOfDay(t: Millis): (r: Millis)
    ensures t <= r < t + MsPerDay
    ensures DayOf(r) == DayOf(t)
    ensures r == StartOfDay(t) + MsPerDay - 1
  {
    DayOf(t) * MsPerDay + MsPerDay - 1
  }

  /** `subDays`: the same time of day `n` days earlier. */
  function SubDays(t: Millis, n: int): (r: Millis)
    ensures DayOf(r) == DayOf(t) - n
    ensures r % MsPerDay == t % MsPerDay
  {
    t - n * MsPerDay
  }

  /** date-fns `differenceInDays(later, earlier)`: the number of whole days
      between two instants, truncated toward zero. */
  function DifferenceInDays(later: Millis, earlier: Millis): (n: int)
    ensures earlier <= later ==> 0 <= n && n * MsPerDay <= later - earlier < n * MsPerDay + MsPerDay
    ensures later <= earlier ==> n <= 0 && -n * MsPerDay <= earlier - later < -n * MsPerDay + MsPerDay
  {
    if earlier <= later then (later - earlier) / MsPerDay else -((earlier - later) / MsPerDay)
  }
}
