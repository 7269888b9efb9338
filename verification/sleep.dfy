/** The sleep log (`useSleep`): a list of nights, newest first, each storing
    its duration in hours as computed by `calculateSleepDuration`; the average
    and the chart of the last seven nights. */
module Sleep {
  import opened Common
  import opened Seqs
  import opened Helpers

  /** A logged night: the form's fields plus `id`, the derived `duration`
      (hours) and `createdAt`. */
  datatype SleepEntry = SleepEntry(
    id: string, sleepTime: Millis, wakeTime: Millis, quality: int, notes: string,
    date: Day, duration: real, createdAt: Millis)

  /** The data `addSleepEntry` receives. */
  datatype SleepInput = SleepInput(sleepTime: Millis, wakeTime: Millis, quality: int, notes: string, date: Day)

  function EntryId(e: SleepEntry): string { e.id }
  function Hours(e: SleepEntry): real { e.duration }

  /** The entry `addSleepEntry` builds with fresh id `id` at instant `now`:
      the duration is the `totalHours` of the two times. A night shorter
      than a day, with the wake time less than a day before the bedtime,
      lasts between 0 and 24 hours. */
  function NewEntry(id: string, input: SleepInput, now: Millis): (e: SleepEntry)
    ensures e.id == id && e.createdAt == now
    ensures e.sleepTime == input.sleepTime && e.wakeTime == input.wakeTime
    ensures e.quality == input.quality && e.notes == input.notes && e.date == input.date
    ensures e.duration == CalculateSleepDuration(input.sleepTime, input.wakeTime).totalHours
    ensures input.sleepTime - input.wakeTime <= MsPerDay && input.wakeTime - input.sleepTime < MsPerDay ==>
      0.0 <= e.duration < 24.0
  {
    var duration := CalculateSleepDuration(input.sleepTime, input.wakeTime);
    SleepEntry(id, input.sleepTime, input.wakeTime, input.quality, input.notes, input.date, duration.totalHours, now)
  }

  /** The state after `deleteSleepEntry(id)`. */
  function Deleted(entries: seq<SleepEntry>, id: string): (r: seq<SleepEntry>)
    ensures forall e :: e in r <==> e in entries && e.id != id
    ensures |r| <= |entries|
  {
    RemoveKey(entries, EntryId, id)
  }

  /** Deleting an id no entry carries changes nothing. */
  lemma DeleteUnknown(entries: seq<SleepEntry>, id: string)
    requires forall e :: e in entries ==> e.id != id
    ensures Deleted(entries, id) == entries
  {
    RemoveUnknownKey(entries, EntryId, id);
  }

  /** `getAverageSleep`: 0 without entries, otherwise total hours / count. */
  function AverageSleep(entries: seq<SleepEntry>): (r: real)
    ensures entries == [] ==> r == 0.0
    ensures entries != [] ==> r * (|entries| as real) == SumReal(entries, Hours)
  {
    Mean(entries, Hours)
  }

  /** The average lies between the shortest and the longest night. */
  lemma AverageWithin(entries: seq<SleepEntry>, lo: real, hi: real)
    requires entries != []
    requires forall e :: e in entries ==> lo <= e.duration <= hi
    ensures lo <= AverageSleep(entries) <= hi
  {
    MeanBounds(entries, Hours, lo, hi);
  }

  /** `reverse()`: the same elements, last first. */
  function Reverse<T>(s: seq<T>): (r: seq<T>)
    ensures |r| == |s|
    ensures forall i :: 0 <= i < |s| ==> r[i] == s[|s| - 1 - i]
  {
    if s == [] then [] else Reverse(s[1..]) + [s[0]]
  }

  /** Reversing twice gives back the list. */
  lemma ReverseReverse<T>(s: seq<T>)
    ensures Reverse(Reverse(s)) == s
  {
    var r := Reverse(Reverse(s));
    forall i | 0 <= i < |s| ensures r[i] == s[i] {
      assert Reverse(s)[|s| - 1 - i] == s[i];
    }
  }

  /** `sleepEntries.slice(0, 7).reverse()`: the (up to) seven newest
      nights, oldest of them first. */
  function WeeklyData(entries: seq<SleepEntry>): (r: seq<SleepEntry>)
    ensures |r| == if |entries| < 7 then |entries| else 7
    ensures forall i :: 0 <= i < |r| ==> r[i] == entries[|r| - 1 - i]
  {
    Reverse(entries[..if |entries| < 7 then |entries| else 7])
  }

  /** The hook's state: the `sleepEntries` list, newest first. */
  class SleepLog {
    var entries: seq<SleepEntry>

    constructor ()
      ensures entries == []
    {
      entries := [];
    }

    /** `addSleepEntry(entryData)` with fresh id `id` at instant `now`. */
    method AddSleepEntry(id: string, entryData: SleepInput, now: Millis) returns (newEntry: SleepEntry)
      modifies this
      ensures newEntry == NewEntry(id, entryData, now)
      ensures entries == [newEntry] + old(entries)
    {
      var duration := CalculateSleepDuration(entryData.sleepTime, entryData.wakeTime);
      newEntry := SleepEntry(id, entryData.sleepTime, entryData.wakeTime, entryData.quality, entryData.notes,
                             entryData.date, duration.totalHours, now);
      entries := [newEntry] + entries;
    }

    /** `deleteSleepEntry(id)` */
    method DeleteSleepEntry(id: string)
      modifies this
      ensures entries == Deleted(old(entries), id)
    {
      entries := RemoveKey(entries, EntryId, id);
    }
  }
}
