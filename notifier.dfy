/**
  What one per-minute tick of `checkPrayerTime` does, as functions of the
  schedule entries, the ledger at the start of the tick and the three clock
  strings (current `HH:MM`, `toDateString()` of now and of now minus one day),
  and the properties of the ledger that follow from them.
*/
module Notifier {
  import opened Wrappers
  import opened Text
  import opened Prayers

  /** A call `sendPrayerNotification(prayer, time)`. */
  datatype Notification = Notification(prayer: Prayer, time: string)

  /** The only time at which the ledger is pruned. */
  const Midnight: string := "00:00"

  /** An entry fires when its time is the current time and its key for the current date is not yet recorded. */
  predicate Due(x: Entry, ledger: set<string>, now: string, date: string) {
    x.time == Some(now) && Key(date, x.prayer) !in ledger
  }

  /** The notifications a tick sends, in schedule order. */
  function Matches(e: seq<Entry>, ledger: set<string>, now: string, date: string): (m: seq<Notification>)
    ensures |m| <= |e|
    ensures forall i :: 0 <= i < |m| ==> m[i].time == now && Key(date, m[i].prayer) !in ledger
    decreases |e|
  {
    if e == [] then []
    else
      var x := e[|e| - 1];
      Matches(e[..|e| - 1], ledger, now, date) + (if Due(x, ledger, now, date) then [Notification(x.prayer, now)] else [])
  }

  /** The ledger keys a tick inserts. */
  function MatchedKeys(e: seq<Entry>, ledger: set<string>, now: string, date: string): (keys: set<string>)
    ensures forall k :: k in keys ==> k !in ledger && StartsWith(k, date)
    decreases |e|
  {
    if e == [] then {}
    else
      var x := e[|e| - 1];
      MatchedKeys(e[..|e| - 1], ledger, now, date) + (if Due(x, ledger, now, date) then {Key(date, x.prayer)} else {})
  }

  /** The midnight cleanup: at `00:00` every key that starts with yesterday's date string goes. */
  function Pruned(ledger: set<string>, now: string, yesterday: string): (kept: set<string>)
    ensures kept <= ledger
    ensures forall k :: k in ledger && !StartsWith(k, yesterday) ==> k in kept
  {
    if now == Midnight then set k | k in ledger && !StartsWith(k, yesterday) else ledger
  }

  /** The ledger after a whole tick: match scan first, then the midnight cleanup. */
  function AfterTick(e: seq<Entry>, ledger: set<string>, now: string, date: string, yesterday: string): (after: set<string>)
    ensures forall k :: k in after ==> k in ledger || StartsWith(k, date)
    ensures now != Midnight ==> ledger <= after
  {
    Pruned(ledger + MatchedKeys(e, ledger, now, date), now, yesterday)
  }

  /** Two date strings of one width that differ, as `toDateString` gives for two different days. */
  predicate OtherDay(date: string, yesterday: string) {
    |yesterday| == |date| && yesterday != date
  }

  /**
    A tick sends prayer `p` at time `t` exactly when `t` is the current time,
    some entry schedules `p` at that time, and `p`'s key for today was absent.
  */
  lemma {:induction false} MatchesExactly(e: seq<Entry>, ledger: set<string>, now: string, date: string, n: Notification)
    ensures n in Matches(e, ledger, now, date) <==>
      n.time == now && Key(date, n.prayer) !in ledger && exists i :: 0 <= i < |e| && e[i] == Entry(n.prayer, Some(now))
    decreases |e|
  {
    if e != [] {
      var front, x := e[..|e| - 1], e[|e| - 1];
      MatchesExactly(front, ledger, now, date, n);
      if n in Matches(e, ledger, now, date) && n !in Matches(front, ledger, now, date) {
        assert e[|e| - 1] == Entry(n.prayer, Some(now));
      }
      if exists i :: 0 <= i < |e| && e[i] == Entry(n.prayer, Some(now)) {
        var i :| 0 <= i < |e| && e[i] == Entry(n.prayer, Some(now));
        if i < |front| {
          assert front[i] == Entry(n.prayer, Some(now));
        }
      }
    }
  }

  /** The keys a tick inserts are exactly the keys of the prayers it sends. */
  lemma {:induction false} MatchedKeysOfMatches(e: seq<Entry>, ledger: set<string>, now: string, date: string, k: string)
    ensures k in MatchedKeys(e, ledger, now, date) <==> exists n :: n in Matches(e, ledger, now, date) && k == Key(date, n.prayer)
    decreases |e|
  {
    if e != [] {
      var front, x := e[..|e| - 1], e[|e| - 1];
      MatchedKeysOfMatches(front, ledger, now, date, k);
      if Due(x, ledger, now, date) && k == Key(date, x.prayer) {
        assert Notification(x.prayer, now) in Matches(e, ledger, now, date);
      }
    }
  }

  /** A key inserted by a tick belongs to one of the scanned entries. */
  lemma {:induction false} MatchedKeyOfEntry(e: seq<Entry>, ledger: set<string>, now: string, date: string, k: string)
    requires k in MatchedKeys(e, ledger, now, date)
    ensures exists j :: 0 <= j < |e| && k == Key(date, e[j].prayer) && Due(e[j], ledger, now, date)
    decreases |e|
  {
    var front, x := e[..|e| - 1], e[|e| - 1];
    if k in MatchedKeys(front, ledger, now, date) {
      MatchedKeyOfEntry(front, ledger, now, date, k);
      var j :| 0 <= j < |front| && k == Key(date, front[j].prayer) && Due(front[j], ledger, now, date);
      assert e[j] == front[j];
    } else {
      assert k == Key(date, e[|e| - 1].prayer);
    }
  }

  /**
    Scanning the entries before position `i` never inserts the key of entry
    `i`, so checking the ledger as it grows during the scan (as the source
    does) and checking the ledger as it stood at the start of the tick agree.
  */
  lemma KeyNotYetMatched(e: seq<Entry>, ledger: set<string>, now: string, date: string, i: nat)
    requires Distinct(e) && i < |e|
    ensures Key(date, e[i].prayer) !in MatchedKeys(e[..i], ledger, now, date)
  {
    var k := Key(date, e[i].prayer);
    if k in MatchedKeys(e[..i], ledger, now, date) {
      MatchedKeyOfEntry(e[..i], ledger, now, date, k);
      var j :| 0 <= j < i && k == Key(date, e[..i][j].prayer) && Due(e[..i][j], ledger, now, date);
      KeyInjective(date, e[j].prayer, e[i].prayer);
      assert false;
    }
  }

  /** One step of the scan: entry `i` extends the notifications and keys of the entries before it. */
  lemma ScanStep(e: seq<Entry>, ledger: set<string>, now: string, date: string, i: nat)
    requires Distinct(e) && i < |e|
    ensures Key(date, e[i].prayer) !in MatchedKeys(e[..i], ledger, now, date)
    ensures var due := Due(e[i], ledger, now, date);
      Matches(e[..i + 1], ledger, now, date) ==
        Matches(e[..i], ledger, now, date) + (if due then [Notification(e[i].prayer, now)] else []) &&
      MatchedKeys(e[..i + 1], ledger, now, date) ==
        MatchedKeys(e[..i], ledger, now, date) + (if due then {Key(date, e[i].prayer)} else {})
  {
    KeyNotYetMatched(e, ledger, now, date, i);
    assert e[..i + 1][..i] == e[..i];
  }

  /** How often prayer `p` occurs among the notifications. */
  function Count(p: Prayer, log: seq<Notification>): nat
    decreases |log|
  {
    if log == [] then 0
    else Count(p, log[..|log| - 1]) + (if log[|log| - 1].prayer == p then 1 else 0)
  }

  lemma {:induction false} CountAppend(p: Prayer, a: seq<Notification>, b: seq<Notification>)
    ensures Count(p, a + b) == Count(p, a) + Count(p, b)
    decreases |b|
  {
    if b != [] {
      CountAppend(p, a, b[..|b| - 1]);
      assert (a + b)[..|a + b| - 1] == a + b[..|b| - 1];
    } else {
      assert a + b == a;
    }
  }

  /** A prayer without an entry is never sent. */
  lemma {:induction false} CountUnscheduled(e: seq<Entry>, ledger: set<string>, now: string, date: string, p: Prayer)
    requires forall i :: 0 <= i < |e| ==> e[i].prayer != p
    ensures Count(p, Matches(e, ledger, now, date)) == 0
    decreases |e|
  {
    if e != [] {
      var front := e[..|e| - 1];
      CountUnscheduled(front, ledger, now, date, p);
      var x := e[|e| - 1];
      CountAppend(p, Matches(front, ledger, now, date), if Due(x, ledger, now, date) then [Notification(x.prayer, now)] else []);
    }
  }

  /**
    One tick sends each prayer at most once; not at all if its key for today
    was already recorded; and when it sends it, it inserts its key.
  */
  lemma {:induction false} CountPerTick(e: seq<Entry>, ledger: set<string>, now: string, date: string, p: Prayer)
    requires Distinct(e)
    ensures Count(p, Matches(e, ledger, now, date)) <= 1
    ensures Key(date, p) in ledger ==> Count(p, Matches(e, ledger, now, date)) == 0
    ensures Count(p, Matches(e, ledger, now, date)) == 1 ==> Key(date, p) in MatchedKeys(e, ledger, now, date)
    decreases |e|
  {
    if e != [] {
      var front, x := e[..|e| - 1], e[|e| - 1];
      var last := if Due(x, ledger, now, date) then [Notification(x.prayer, now)] else [];
      CountAppend(p, Matches(front, ledger, now, date), last);
      assert Count(p, last) == if Due(x, ledger, now, date) && x.prayer == p then 1 else 0 by {
        assert last != [] ==> last[..0] == [];
      }
      if x.prayer == p {
        CountUnscheduled(front, ledger, now, date, p);
      } else {
        CountPerTick(front, ledger, now, date, p);
      }
    }
  }

  /**
    The ledger loses keys only at `00:00`. Otherwise it only gains the keys of
    the prayers sent; at `00:00` it keeps exactly the keys, old or just
    inserted, that do not start with yesterday's date string.
  */
  lemma LedgerChange(e: seq<Entry>, ledger: set<string>, now: string, date: string, yesterday: string, k: string)
    ensures now != Midnight ==> AfterTick(e, ledger, now, date, yesterday) == ledger + MatchedKeys(e, ledger, now, date)
    ensures now == Midnight ==>
      (k in AfterTick(e, ledger, now, date, yesterday) <==>
       (k in ledger || k in MatchedKeys(e, ledger, now, date)) && !StartsWith(k, yesterday))
  {
  }

  /** After a tick, the key of every prayer it sent is recorded (the midnight cleanup of another day keeps it). */
  lemma SentIsRecorded(e: seq<Entry>, ledger: set<string>, now: string, date: string, yesterday: string, n: Notification)
    requires now != Midnight || OtherDay(date, yesterday)
    requires n in Matches(e, ledger, now, date)
    ensures Key(date, n.prayer) in AfterTick(e, ledger, now, date, yesterday)
  {
    MatchedKeysOfMatches(e, ledger, now, date, Key(date, n.prayer));
    if now == Midnight {
      KeyNotOfOtherDate(date, yesterday, n.prayer);
    }
  }

  /** Keys of today survive a tick: the cleanup only removes keys of another day. */
  lemma TodayKeptByTick(e: seq<Entry>, ledger: set<string>, now: string, date: string, yesterday: string, p: Prayer)
    requires now != Midnight || OtherDay(date, yesterday)
    requires Key(date, p) in ledger
    ensures Key(date, p) in AfterTick(e, ledger, now, date, yesterday)
  {
    if now == Midnight {
      KeyNotOfOtherDate(date, yesterday, p);
    }
  }

  /** When no entry is due, a tick sends nothing and inserts nothing. */
  lemma {:induction false} NothingDue(e: seq<Entry>, ledger: set<string>, now: string, date: string)
    requires forall i :: 0 <= i < |e| ==> !Due(e[i], ledger, now, date)
    ensures Matches(e, ledger, now, date) == [] && MatchedKeys(e, ledger, now, date) == {}
    decreases |e|
  {
    if e != [] {
      NothingDue(e[..|e| - 1], ledger, now, date);
    }
  }

  /**
    A second tick with the same time and dates sends nothing and leaves the
    ledger as the first tick left it.
  */
  lemma SecondTickIsIdle(e: seq<Entry>, ledger: set<string>, now: string, date: string, yesterday: string)
    requires now != Midnight || OtherDay(date, yesterday)
    ensures var after := AfterTick(e, ledger, now, date, yesterday);
      Matches(e, after, now, date) == [] && AfterTick(e, after, now, date, yesterday) == after
  {
    var after := AfterTick(e, ledger, now, date, yesterday);
    forall i | 0 <= i < |e| ensures !Due(e[i], after, now, date) {
      var x := e[i];
      if x.time == Some(now) {
        if Key(date, x.prayer) in ledger {
          TodayKeptByTick(e, ledger, now, date, yesterday, x.prayer);
        } else {
          MatchesExactly(e, ledger, now, date, Notification(x.prayer, now));
          SentIsRecorded(e, ledger, now, date, yesterday, Notification(x.prayer, now));
        }
      }
    }
    NothingDue(e, after, now, date);
    assert after + {} == after;
  }

  /** One minute tick as the bot sees it: the cached schedule and the three clock strings. */
  datatype TickInput = TickInput(schedule: Option<Times>, now: string, date: string, yesterday: string)

  /** Notifications sent by a run of ticks, starting from a ledger. The schedule may change between ticks. */
  function Log(ledger: set<string>, ticks: seq<TickInput>): seq<Notification>
    decreases |ticks|
  {
    if ticks == [] then []
    else
      var t := ticks[0];
      var e := Entries(t.schedule);
      Matches(e, ledger, t.now, t.date) + Log(AfterTick(e, ledger, t.now, t.date, t.yesterday), ticks[1..])
  }

  /**
    At most once per date: over any run of ticks that all carry the date
    string `date` (and whose cleanup, if any, is for another day), each
    prayer is sent at most once, and not at all if its key was already
    recorded, however often the schedule is replaced in between.
  */
  lemma {:induction false} AtMostOncePerDate(ledger: set<string>, ticks: seq<TickInput>, date: string, p: Prayer)
    requires forall i :: 0 <= i < |ticks| ==> ticks[i].date == date
    requires forall i :: 0 <= i < |ticks| ==> ticks[i].now != Midnight || OtherDay(date, ticks[i].yesterday)
    ensures Count(p, Log(ledger, ticks)) <= (if Key(date, p) in ledger then 0 else 1)
    decreases |ticks|
  {
    if ticks != [] {
      var t := ticks[0];
      var e := Entries(t.schedule);
      var after := AfterTick(e, ledger, t.now, date, t.yesterday);
      var sent := Matches(e, ledger, t.now, date);
      EntriesDistinct(t.schedule);
      CountPerTick(e, ledger, t.now, date, p);
      CountAppend(p, sent, Log(after, ticks[1..]));
      AtMostOncePerDate(after, ticks[1..], date, p);
      if Key(date, p) in ledger {
        TodayKeptByTick(e, ledger, t.now, date, t.yesterday, p);
      } else if Count(p, sent) == 1 {
        assert Key(date, p) in after;
      }
    }
  }

  /** With the schedule 05:00, 12:30, 15:45, 18:10, 19:40, a tick at 12:30 sends Dhuhr and nothing else. */
  lemma SampleTickAtDhuhr(date: string)
    ensures var sample := Times(Some("05:00"), Some("12:30"), Some("15:45"), Some("18:10"), Some("19:40"));
      Matches(Entries(Some(sample)), {}, "12:30", date) == [Notification(Dhuhr, "12:30")]
  {
    var sample := Times(Some("05:00"), Some("12:30"), Some("15:45"), Some("18:10"), Some("19:40"));
    var e := Entries(Some(sample));
    var f, d, a, m, i := Entry(Fajr, Some("05:00")), Entry(Dhuhr, Some("12:30")), Entry(Asr, Some("15:45")),
                         Entry(Maghrib, Some("18:10")), Entry(Isha, Some("19:40"));
    assert e == [f, d, a, m, i];
    assert [f, d, a, m, i][..4] == [f, d, a, m] && [f, d, a, m][..3] == [f, d, a];
    assert [f, d, a][..2] == [f, d] && [f, d][..1] == [f] && [f][..0] == [];
    assert Matches([f], {}, "12:30", date) == [];
    assert Matches([f, d], {}, "12:30", date) == [Notification(Dhuhr, "12:30")];
    assert Matches([f, d, a], {}, "12:30", date) == [Notification(Dhuhr, "12:30")];
    assert Matches([f, d, a, m], {}, "12:30", date) == [Notification(Dhuhr, "12:30")];
  }
}
