/**
  The `HH:MM` wall-clock text that both the per-minute tick and the
  next-prayer command build from `getHours()` and `getMinutes()`
  (`String(n).padStart(2, "0")` on each, joined by a colon), and why
  comparing such texts as strings orders them by time of day.
*/
module Clock {
  import opened Text

  /** The shape of an `HH:MM` text: two digits, a colon, two digits. */
  predicate IsShaped(s: string) {
    |s| == 5 && IsDigit(s[0]) && IsDigit(s[1]) && s[2] == ':' && IsDigit(s[3]) && IsDigit(s[4])
  }

  function Hour(s: string): nat
    requires IsShaped(s)
  {
    10 * DigitValue(s[0]) + DigitValue(s[1])
  }

  function Minute(s: string): nat
    requires IsShaped(s)
  {
    10 * DigitValue(s[3]) + DigitValue(s[4])
  }

  /** A real time of day: hour 0..23, minute 0..59. */
  predicate IsClock(s: string) {
    IsShaped(s) && Hour(s) < 24 && Minute(s) < 60
  }

  /** Minutes since midnight. */
  function MinuteOfDay(s: string): nat
    requires IsShaped(s)
  {
    60 * Hour(s) + Minute(s)
  }

  /** `String(n).padStart(2, "0")`: two digits that read back as `n`. */
  function Pad2(n: nat): (r: string)
    requires n < 100
    ensures |r| == 2 && IsDigit(r[0]) && IsDigit(r[1])
    ensures 10 * DigitValue(r[0]) + DigitValue(r[1]) == n
  {
    var s := NatToString(n);
    DigitValueOfChar(n / 10);
    DigitValueOfChar(n % 10);
    assert n >= 10 ==> s == NatToString(n / 10) + [DigitChar(n % 10)];
    var r := PadStart(s, 2, '0');
    assert r == [DigitChar(n / 10), DigitChar(n % 10)];
    r
  }

  /** The current time as the bot prints it: always a well-formed `HH:MM` that reads back as the same hour and minute. */
  function Format(hour: nat, minute: nat): (r: string)
    requires hour < 24 && minute < 60
    ensures |r| == 5 && r[2] == ':'
    ensures IsClock(r) && Hour(r) == hour && Minute(r) == minute
  {
    var hh, mm := Pad2(hour), Pad2(minute);
    JoinPads(hh, mm);
    hh + ":" + mm
  }

  /** Two two-digit texts joined by a colon form an `HH:MM` text with those digits. */
  lemma JoinPads(hh: string, mm: string)
    requires |hh| == 2 && IsDigit(hh[0]) && IsDigit(hh[1])
    requires |mm| == 2 && IsDigit(mm[0]) && IsDigit(mm[1])
    ensures var r := hh + ":" + mm;
      IsShaped(r) && Hour(r) == 10 * DigitValue(hh[0]) + DigitValue(hh[1]) &&
      Minute(r) == 10 * DigitValue(mm[0]) + DigitValue(mm[1])
  {
    var r := hh + ":" + mm;
    assert r[0] == hh[0] && r[1] == hh[1] && r[2] == ':' && r[3] == mm[0] && r[4] == mm[1];
  }

  /** Every well-formed `HH:MM` text is the formatting of its own hour and minute. */
  lemma FormatOfParsed(s: string)
    requires IsClock(s)
    ensures Format(Hour(s), Minute(s)) == s
  {
    ClockDetermined(Format(Hour(s), Minute(s)), s);
  }

  /** A well-formed `HH:MM` text is determined by its hour and minute. */
  lemma ClockDetermined(r: string, s: string)
    requires IsShaped(r) && IsShaped(s)
    requires Hour(r) == Hour(s) && Minute(r) == Minute(s)
    ensures r == s
  {
    SameDigits(r[0], r[1], s[0], s[1]);
    SameDigits(r[3], r[4], s[3], s[4]);
    assert forall i | 0 <= i < 5 :: r[i] == s[i];
  }

  /** Two digit pairs that read as the same number are the same pair. */
  lemma SameDigits(a0: char, a1: char, b0: char, b1: char)
    requires IsDigit(a0) && IsDigit(a1) && IsDigit(b0) && IsDigit(b1)
    requires 10 * DigitValue(a0) + DigitValue(a1) == 10 * DigitValue(b0) + DigitValue(b1)
    ensures a0 == b0 && a1 == b1
  {
  }

  /** One step of the string order on non-empty strings. */
  lemma LessStep(a: string, b: string)
    requires a != [] && b != []
    ensures Less(a, b) <==> a[0] < b[0] || (a[0] == b[0] && Less(a[1..], b[1..]))
  {
  }

  /** On well-formed `HH:MM` texts the JavaScript string order is the order of the times of day. */
  lemma {:induction false} LessIsEarlier(a: string, b: string)
    requires IsClock(a) && IsClock(b)
    ensures Less(a, b) <==> MinuteOfDay(a) < MinuteOfDay(b)
  {
    LessStep(a, b);
    LessStep(a[1..], b[1..]);
    LessStep(a[2..], b[2..]);
    LessStep(a[3..], b[3..]);
    LessStep(a[4..], b[4..]);
    assert a[1..][1..] == a[2..] && b[1..][1..] == b[2..];
    assert a[2..][1..] == a[3..] && b[2..][1..] == b[3..];
    assert a[3..][1..] == a[4..] && b[3..][1..] == b[4..];
    assert a[4..][1..] == [] && b[4..][1..] == [];
    var a0, a1, a3, a4 := DigitValue(a[0]), DigitValue(a[1]), DigitValue(a[3]), DigitValue(a[4]);
    var b0, b1, b3, b4 := DigitValue(b[0]), DigitValue(b[1]), DigitValue(b[3]), DigitValue(b[4]);
    assert a[0] < b[0] <==> a0 < b0;
    assert a[1] < b[1] <==> a1 < b1;
    assert a[3] < b[3] <==> a3 < b3;
    assert a[4] < b[4] <==> a4 < b4;
    assert a3 < 6 && b3 < 6;
  }

  /** Formatting preserves the order of times of day in both directions. */
  lemma FormatOrder(h1: nat, m1: nat, h2: nat, m2: nat)
    requires h1 < 24 && m1 < 60 && h2 < 24 && m2 < 60
    ensures Less(Format(h1, m1), Format(h2, m2)) <==> 60 * h1 + m1 < 60 * h2 + m2
  {
    LessIsEarlier(Format(h1, m1), Format(h2, m2));
  }
}
