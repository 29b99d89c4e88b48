/**
  The `next-prayer` command's choice: the first cached prayer, in schedule
  order, whose time text is greater than the current `HH:MM`; failing that,
  Fajr with today's cached Fajr time.
*/
module NextPrayer {
  import opened Wrappers
  import opened Text
  import opened Clock
  import opened Prayers

  /** `time > currentTime`; an `undefined` time is never greater. */
  predicate Later(time: Option<string>, now: string) {
    time.Some? && Less(now, time.value)
  }

  /** The position of the first entry later than `now`, or `|e|` when there is none. */
  function FirstLater(e: seq<Entry>, now: string): (k: nat)
    ensures k <= |e|
    ensures forall j :: 0 <= j < k ==> !Later(e[j].time, now)
    ensures k < |e| ==> Later(e[k].time, now)
    decreases |e|
  {
    if e == [] then 0
    else if Later(e[0].time, now) then 0
    else 1 + FirstLater(e[1..], now)
  }

  /** The command's answer: a prayer and the time shown for it. */
  datatype Next = Next(prayer: Prayer, time: Option<string>)

  /** `prayerTimes.Fajr`: `undefined` before the first fetch. */
  function CachedFajr(schedule: Option<Times>): Option<string> {
    if schedule.Some? then schedule.value.fajr else None
  }

  /** The `next-prayer` answer: a prayer later than now, or the Fajr fallback, with its cached time. */
  function NextOf(schedule: Option<Times>, now: string): (n: Next)
    ensures Later(n.time, now) || n.prayer == Fajr
    ensures schedule.Some? ==> n.time == TimeOf(schedule.value, n.prayer)
  {
    var e := Entries(schedule);
    var k := FirstLater(e, now);
    if k < |e| then Next(e[k].prayer, e[k].time) else Next(Fajr, CachedFajr(schedule))
  }

  /** Every prayer of the schedule has a well-formed `HH:MM` time. */
  predicate AllClocks(t: Times) {
    forall p :: TimeOf(t, p).Some? && IsClock(TimeOf(t, p).value)
  }

  /** Minutes since midnight of a prayer in such a schedule. */
  function MinuteOfPrayer(t: Times, p: Prayer): nat
    requires AllClocks(t)
  {
    MinuteOfDay(TimeOf(t, p).value)
  }

  /**
    With a cached schedule of well-formed times, the answer is the first
    prayer in Fajr..Isha order that comes later in the day than now; when
    every prayer is at or before now it is Fajr at today's Fajr time.
  */
  lemma NextIsLaterInDay(t: Times, now: string)
    requires IsClock(now) && AllClocks(t)
    ensures var n := NextOf(Some(t), now);
      n.time == TimeOf(t, n.prayer) &&
      (forall q :: Position(q) < Position(n.prayer) ==> MinuteOfPrayer(t, q) <= MinuteOfDay(now)) &&
      (MinuteOfDay(now) < MinuteOfPrayer(t, n.prayer) ||
       (n.prayer == Fajr && forall p :: MinuteOfPrayer(t, p) <= MinuteOfDay(now)))
  {
    var e := Entries(Some(t));
    EntriesDistinct(Some(t));
    forall p ensures Later(TimeOf(t, p), now) <==> MinuteOfDay(now) < MinuteOfPrayer(t, p) {
      LessIsEarlier(now, TimeOf(t, p).value);
    }
    var k := FirstLater(e, now);
    if k < |e| {
      assert Position(e[k].prayer) == k;
    } else {
      forall p ensures MinuteOfPrayer(t, p) <= MinuteOfDay(now) {
        assert e[Position(p)].time == TimeOf(t, p);
      }
    }
  }

  /** Before the first fetch the answer is Fajr with an `undefined` time. */
  lemma NextBeforeFirstFetch(now: string)
    ensures NextOf(None, now) == Next(Fajr, None)
  {
  }

  /** With the schedule 05:00, 12:30, 15:45, 18:10, 19:40: at 12:00 the next prayer is Dhuhr, at 20:00 it is Fajr at 05:00. */
  lemma SampleNextPrayer()
    ensures var sample := Times(Some("05:00"), Some("12:30"), Some("15:45"), Some("18:10"), Some("19:40"));
      NextOf(Some(sample), "12:00") == Next(Dhuhr, Some("12:30")) &&
      NextOf(Some(sample), "20:00") == Next(Fajr, Some("05:00"))
  {
    var sample := Times(Some("05:00"), Some("12:30"), Some("15:45"), Some("18:10"), Some("19:40"));
    var e := Entries(Some(sample));
    assert Less("12:00", "12:30") && !Less("12:00", "05:00");
    assert !Less("20:00", "05:00") && !Less("20:00", "12:30") && !Less("20:00", "15:45");
    assert !Less("20:00", "18:10") && !Less("20:00", "19:40");
    assert e[1..][1..][1..][1..][1..] == [];
  }
}
