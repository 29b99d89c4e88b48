/**
  The five daily prayers, the cached schedule `prayerTimes` and the keys of
  the notification ledger `notifiedPrayers`.
*/
module Prayers {
  import opened Wrappers
  import opened Text

  datatype Prayer = Fajr | Dhuhr | Asr | Maghrib | Isha

  /** The property name a prayer has in the schedule object and in the upstream `timings`. */
  function Name(p: Prayer): string {
    match p
    case Fajr => "Fajr"
    case Dhuhr => "Dhuhr"
    case Asr => "Asr"
    case Maghrib => "Maghrib"
    case Isha => "Isha"
  }

  /** The order in which the schedule object is built, and so the order `Object.entries` visits it. */
  const Order: seq<Prayer> := [Fajr, Dhuhr, Asr, Maghrib, Isha]

  /**
    One fetched schedule. A field is `None` when the upstream `timings` had no
    such property, which leaves the JavaScript value `undefined`.
  */
  datatype Times = Times(fajr: Option<string>, dhuhr: Option<string>, asr: Option<string>,
                         maghrib: Option<string>, isha: Option<string>)

  function TimeOf(t: Times, p: Prayer): Option<string> {
    match p
    case Fajr => t.fajr
    case Dhuhr => t.dhuhr
    case Asr => t.asr
    case Maghrib => t.maghrib
    case Isha => t.isha
  }

  /** One `[prayer, time]` pair of `Object.entries(prayerTimes)`. */
  datatype Entry = Entry(prayer: Prayer, time: Option<string>)

  /**
    `Object.entries(prayerTimes)`: nothing before the first successful fetch
    (the object is `{}`), otherwise the five prayers in `Order`.
  */
  function Entries(schedule: Option<Times>): (e: seq<Entry>)
    ensures schedule.None? ==> e == []
    ensures schedule.Some? ==> |e| == |Order|
    ensures forall i :: 0 <= i < |e| ==> e[i].prayer == Order[i] && e[i].time == TimeOf(schedule.value, Order[i])
  {
    match schedule
    case None => []
    case Some(t) => seq(|Order|, i requires 0 <= i < |Order| => Entry(Order[i], TimeOf(t, Order[i])))
  }

  /** No prayer appears twice, as in any JavaScript object. */
  predicate Distinct(e: seq<Entry>) {
    forall i, j :: 0 <= i < j < |e| ==> e[i].prayer != e[j].prayer
  }

  /** Where a prayer stands in `Order`. */
  function Position(p: Prayer): (i: nat)
    ensures i < |Order| && Order[i] == p
  {
    match p
    case Fajr => 0
    case Dhuhr => 1
    case Asr => 2
    case Maghrib => 3
    case Isha => 4
  }

  /** The schedule's entries name each prayer once, and once a schedule is cached every prayer has its entry. */
  lemma EntriesDistinct(schedule: Option<Times>)
    ensures Distinct(Entries(schedule))
    ensures schedule.Some? ==> forall p :: Entries(schedule)[Position(p)] == Entry(p, TimeOf(schedule.value, p))
  {
  }

  /** The ledger key `${date}-${prayer}`. */
  function Key(date: string, p: Prayer): (k: string)
    ensures |k| == |date| + 1 + |Name(p)| && StartsWith(k, date)
  {
    date + "-" + Name(p)
  }

  /** On one date, distinct prayers get distinct keys. */
  lemma KeyInjective(date: string, p: Prayer, q: Prayer)
    ensures Key(date, p) == Key(date, q) <==> p == q
  {
    if Key(date, p) == Key(date, q) {
      var n := |date| + 1;
      assert Key(date, p)[n..] == Name(p);
      assert Key(date, q)[n..] == Name(q);
    }
  }

  /**
    A key of one date never starts with a different date string of the same
    width (as `toDateString` produces for every day of the years 1000 to 9999).
  */
  lemma KeyNotOfOtherDate(date: string, other: string, p: Prayer)
    requires |other| == |date| && other != date
    ensures !StartsWith(Key(date, p), other)
  {
    assert Key(date, p)[..|date|] == date;
  }
}
