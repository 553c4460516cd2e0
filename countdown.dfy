/**
 * The countdown to the next winner announcement (`CountdownTimer`): the time
 * from `now` to the next 01:00 UTC, split into hours, minutes and seconds and
 * shown as two-digit, zero-padded numbers. Times are integer milliseconds
 * since the epoch, and every day is 86 400 000 ms long.
 */
module Countdown {
  import opened Wrappers

  const MsPerSecond: int := 1000
  const MsPerMinute: int := 60 * MsPerSecond
  const MsPerHour: int := 60 * MsPerMinute
  const MsPerDay: int := 24 * MsPerHour

  /**
   * `targetTime`: 01:00 UTC of `now`'s UTC day, or of the following day when
   * `now` is already past it.
   */
  function TargetTime(now: int): (t: int)
    ensures t % MsPerDay == MsPerHour
    ensures now <= t < now + MsPerDay
    ensures t == now <==> now % MsPerDay == MsPerHour
  {
    var announcement := now - now % MsPerDay + MsPerHour;
    if now > announcement then announcement + MsPerDay else announcement
  }

  /** The displayed remainder of a positive difference. */
  datatype TimeLeft = TimeLeft(hours: nat, minutes: nat, seconds: nat)

  /** The three `Math.floor` lines of `calculateTimeLeft`, for a positive `difference`. */
  function Split(difference: int): (r: TimeLeft)
    requires difference > 0
    ensures r.minutes < 60 && r.seconds < 60
    ensures var whole := r.hours * MsPerHour + r.minutes * MsPerMinute + r.seconds * MsPerSecond;
      whole <= difference < whole + MsPerSecond
  {
    var hours := difference / MsPerHour;
    var minutes := (difference % MsPerHour) / MsPerMinute;
    var seconds := (difference % MsPerMinute) / MsPerSecond;
    assert difference % MsPerHour == minutes * MsPerMinute + difference % MsPerMinute by {
      assert difference % MsPerHour % MsPerMinute == difference % MsPerMinute;
    }
    TimeLeft(hours, minutes, seconds)
  }

  /**
   * `calculateTimeLeft`: nothing exactly at the announcement instant (the
   * difference is then zero), otherwise the split of the time to the target.
   */
  function TimeLeftAt(now: int): (r: Option<TimeLeft>)
    ensures r.None? <==> now % MsPerDay == MsPerHour
    ensures r.Some? ==> r.value.hours < 24
    ensures r.Some? ==> var left := r.value;
      var whole := left.hours * MsPerHour + left.minutes * MsPerMinute + left.seconds * MsPerSecond;
      whole <= TargetTime(now) - now < whole + MsPerSecond
  {
    var difference := TargetTime(now) - now;
    if difference > 0 then Some(Split(difference)) else None
  }

  /** A string made only of decimal digits. */
  predicate IsDigits(s: string)
  {
    forall i :: 0 <= i < |s| ==> '0' <= s[i] <= '9'
  }

  /** The number a digit string denotes, reading its last digit as the units. */
  function DecimalValue(s: string): nat
    requires IsDigits(s)
  {
    if s == [] then 0
    else DecimalValue(s[..|s| - 1]) * 10 + (s[|s| - 1] - '0') as nat
  }

  /** The digit character of `d`. */
  function DigitChar(d: int): (c: char)
    requires 0 <= d < 10
    ensures '0' <= c <= '9' && (c - '0') as int == d
  {
    (d + '0' as int) as char
  }

  /** `n.toString()`: the shortest decimal numeral of `n`. */
  function DecimalString(n: nat): (s: string)
    ensures |s| >= 1 && IsDigits(s)
    ensures DecimalValue(s) == n
    ensures s[0] == '0' ==> n == 0 && |s| == 1
  {
    if n < 10 then [DigitChar(n)]
    else
      var init := DecimalString(n / 10);
      var s := init + [DigitChar(n % 10)];
      assert s[..|s| - 1] == init;
      s
  }

  /** `n` copies of `c`. */
  function Repeat(c: char, n: nat): (r: string)
    ensures |r| == n && forall i :: 0 <= i < n ==> r[i] == c
  {
    if n == 0 then [] else [c] + Repeat(c, n - 1)
  }

  /** `padStart(width, fill)`: `fill` repeated on the left until the string is `width` long. */
  function PadStart(s: string, width: nat, fill: char): (r: string)
    ensures |r| == if |s| >= width then |s| else width
    ensures r[|r| - |s|..] == s
    ensures forall i :: 0 <= i < |r| - |s| ==> r[i] == fill
  {
    var padding := Repeat(fill, if |s| >= width then 0 else width - |s|);
    assert (padding + s)[|padding|..] == s;
    padding + s
  }

  /** A leading '0' does not change the number a digit string denotes. */
  lemma {:induction false} LeadingZeroKeepsValue(s: string)
    requires IsDigits(s)
    ensures IsDigits(['0'] + s) && DecimalValue(['0'] + s) == DecimalValue(s)
  {
    var t := ['0'] + s;
    if s != [] {
      assert t[..|t| - 1] == ['0'] + s[..|s| - 1];
      LeadingZeroKeepsValue(s[..|s| - 1]);
    }
  }

  /** Any number of leading '0's keep a digit string's value. */
  lemma {:induction false} LeadingZerosKeepValue(n: nat, s: string)
    requires IsDigits(s)
    ensures IsDigits(Repeat('0', n) + s) && DecimalValue(Repeat('0', n) + s) == DecimalValue(s)
  {
    if n == 0 {
      assert Repeat('0', n) + s == s;
    } else {
      LeadingZerosKeepValue(n - 1, s);
      assert Repeat('0', n) + s == ['0'] + (Repeat('0', n - 1) + s);
      LeadingZeroKeepsValue(Repeat('0', n - 1) + s);
    }
  }

  /** Zero-padding a digit string keeps it a digit string with the same value. */
  lemma PaddingKeepsValue(s: string, width: nat)
    requires IsDigits(s)
    ensures IsDigits(PadStart(s, width, '0'))
    ensures DecimalValue(PadStart(s, width, '0')) == DecimalValue(s)
  {
    LeadingZerosKeepValue(if |s| >= width then 0 else width - |s|, s);
  }

  /** One field of the display: `n.toString().padStart(2, '0')`. */
  function TwoDigits(n: nat): (r: string)
    ensures |r| >= 2 && IsDigits(r)
    ensures DecimalValue(r) == n
    ensures n < 10 ==> r[0] == '0'
  {
    var s := DecimalString(n);
    PaddingKeepsValue(s, 2);
    PadStart(s, 2, '0')
  }

  /** What the component renders. */
  datatype Display =
    | AnnouncementInProgress
    | Clock(hours: string, minutes: string, seconds: string)

  /** The render: the announcement notice without a time left, else the three padded fields. */
  function Render(timeLeft: Option<TimeLeft>): (d: Display)
    ensures d.AnnouncementInProgress? <==> timeLeft.None?
    ensures d.Clock? ==> IsDigits(d.hours) && IsDigits(d.minutes) && IsDigits(d.seconds)
    ensures d.Clock? ==>
      && DecimalValue(d.hours) == timeLeft.value.hours
      && DecimalValue(d.minutes) == timeLeft.value.minutes
      && DecimalValue(d.seconds) == timeLeft.value.seconds
    ensures d.Clock? ==> |d.hours| >= 2 && |d.minutes| >= 2 && |d.seconds| >= 2
  {
    match timeLeft
    case None => AnnouncementInProgress
    case Some(left) => Clock(TwoDigits(left.hours), TwoDigits(left.minutes), TwoDigits(left.seconds))
  }

  class CountdownTimer {
    var timeLeft: Option<TimeLeft>

    /** `useState(null)`. */
    constructor ()
      ensures timeLeft.None?
    {
      timeLeft := None;
    }

    /** One run of `calculateTimeLeft` (on mount and every second after). */
    method Tick(now: int)
      modifies this
      ensures timeLeft == TimeLeftAt(now)
      ensures timeLeft.None? <==> now % MsPerDay == MsPerHour
    {
      timeLeft := TimeLeftAt(now);
    }
  }
}
