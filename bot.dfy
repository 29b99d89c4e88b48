/**
  The bot's process-wide state (`prayerTimes`, `notifiedPrayers`,
  `lastFetchDate`) and the three code paths that read or change it: the
  per-minute `checkPrayerTime`, the state-writing part of
  `fetchPrayerTimes`, and the scan of the `next-prayer` command. The clock,
  the HTTP request and the chat channel are parameters: a tick is given the
  current `HH:MM` (`Clock.Format` of the hour and minute), the current
  `toDateString()` and that of one day earlier; a fetch is given the
  response; each notification handed to `sendPrayerNotification` is
  appended to `sent`.
*/
module Bot {
  import opened Wrappers
  import opened Text
  import opened Prayers
  import opened Notifier
  import opened Fetch
  import opened NextPrayer
  import CalculationMethods

  class PrayerBot {
    /** `CITY` and `COUNTRY`: the default location, fixed at start-up. */
    const city: string
    const country: string

    /** `prayerTimes`: `None` while it is still `{}`. */
    var schedule: Option<Times>
    /** `notifiedPrayers`: the keys `${date}-${prayer}` already announced. */
    var notified: set<string>
    /** `lastFetchDate`: `None` while `null` (or after a payload without `gregorian.date`). */
    var lastFetchDate: Option<string>
    /** Every `sendPrayerNotification(prayer, time)` call so far, in order. */
    var sent: seq<Notification>

    constructor (city: string, country: string)
      ensures this.city == city && this.country == country
      ensures schedule == None && notified == {} && lastFetchDate == None && sent == []
    {
      this.city := city;
      this.country := country;
      schedule := None;
      notified := {};
      lastFetchDate := None;
      sent := [];
    }

    predicate IsDefault(city: string, country: string)
      reads this
    {
      city == this.city && country == this.country
    }

    /**
      `checkPrayerTime`: announce each cached prayer whose time is `now` and
      whose key for `date` is absent, recording its key; then, at `00:00`,
      drop every key that starts with `yesterday`. The schedule is untouched.
    */
    method Tick(now: string, date: string, yesterday: string)
      modifies this`notified, this`sent
      ensures sent == old(sent) + Matches(Entries(schedule), old(notified), now, date)
      ensures notified == AfterTick(Entries(schedule), old(notified), now, date, yesterday)
    {
      Scan(now, date);
      if now == Midnight {
        DropDay(yesterday);
      }
    }

    /** The `for ... of Object.entries(prayerTimes)` loop, checking the live set as it grows. */
    method Scan(now: string, date: string)
      modifies this`notified, this`sent
      ensures sent == old(sent) + Matches(Entries(schedule), old(notified), now, date)
      ensures notified == old(notified) + MatchedKeys(Entries(schedule), old(notified), now, date)
    {
      var entries := Entries(schedule);
      EntriesDistinct(schedule);
      ghost var start := notified;
      for i := 0 to |entries|
        invariant notified == start + MatchedKeys(entries[..i], start, now, date)
        invariant sent == old(sent) + Matches(entries[..i], start, now, date)
      {
        var prayer, time := entries[i].prayer, entries[i].time;
        var key := Key(date, prayer);
        ScanStep(entries, start, now, date, i);
        if time == Some(now) && key !in notified {
          sent := sent + [Notification(prayer, time.value)];
          notified := notified + {key};
        }
      }
      assert entries[..|entries|] == entries;
    }

    /** The midnight cleanup: visit every key and delete those that start with `yesterday`. */
    method DropDay(yesterday: string)
      modifies this`notified
      ensures notified == set k | k in old(notified) && !StartsWith(k, yesterday)
    {
      ghost var marked := notified;
      var rest := notified;
      while rest != {}
        invariant rest <= marked
        invariant notified == set k | k in marked && (k in rest || !StartsWith(k, yesterday))
        decreases rest
      {
        var key :| key in rest;
        if StartsWith(key, yesterday) {
          notified := notified - {key};
        }
        rest := rest - {key};
      }
    }

    /**
      `fetchPrayerTimes(city, country, methodId)` once the request has
      produced `response`. The result never depends on the location; only a
      fetch for the default location writes the schedule and the fetch date,
      and it writes the schedule before it reads `date.gregorian.date`, so a
      payload without that date fails after replacing the schedule.
    */
    method Fetch(city: string, country: string, methodId: string, response: Response) returns (result: FetchResult)
      modifies this`schedule, this`lastFetchDate
      ensures result == Outcome(response, city, country, methodId)
      ensures !IsDefault(city, country) || Decode(response).Rejected? ==>
        schedule == old(schedule) && lastFetchDate == old(lastFetchDate)
      ensures IsDefault(city, country) && Decode(response).Decoded? ==>
        schedule == Some(Decode(response).times) &&
        lastFetchDate == match GregorianDate(Decode(response).date)
                         case Success(day) => day
                         case Failure(_) => old(lastFetchDate)
    {
      match response
      case TransportError(message) =>
        return FetchFailed(message);
      case Reply(code, data) =>
        if code != Some(200) {
          return FetchFailed(ApiCodeError(code));
        }
        if data.None? {
          return FetchFailed(ReadError("timings"));
        }
        var timings, date := data.value.timings, data.value.date;
        if timings.None? {
          return FetchFailed(ReadError("Fajr"));
        }
        var newTimes := Extract(timings.value);
        if city == this.city && country == this.country {
          schedule := Some(newTimes);
          var day := GregorianDate(date);
          if day.Failure? {
            return FetchFailed(day.error);
          }
          lastFetchDate := day.value;
        }
        var day := GregorianDate(date);
        if day.Failure? {
          return FetchFailed(day.error);
        }
        return Fetched(newTimes, city, country, day.value, CalculationMethods.FetchLabel(methodId));
    }

    /**
      The `next-prayer` scan: the first cached entry, in schedule order,
      whose time is greater than `now`; otherwise Fajr with the cached Fajr
      time.
    */
    method FindNextPrayer(now: string) returns (prayer: Prayer, time: Option<string>)
      ensures Next(prayer, time) == NextOf(schedule, now)
    {
      var entries := Entries(schedule);
      var found := false;
      prayer, time := Fajr, None;
      var i := 0;
      while i < |entries|
        invariant 0 <= i <= |entries|
        invariant forall j :: 0 <= j < i ==> !Later(entries[j].time, now)
      {
        if entries[i].time.Some? && Less(now, entries[i].time.value) {
          prayer, time := entries[i].prayer, entries[i].time;
          found := true;
          break;
        }
        i := i + 1;
      }
      if !found {
        prayer := Fajr;
        time := if schedule.Some? then schedule.value.fajr else None;
      }
    }
  }
}
