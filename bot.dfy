/** The uptime text of the bot status panel (`formatUptime` in
    src/lib/services/botService.ts). */
module Bot {
  import opened JsText

  /** How an uptime is read out: under a minute, or whole days and hours,
      whole hours and minutes, or whole minutes. */
  datatype Uptime = UnderAMinute | Days(days: nat, hours: nat) | Hours(hours: nat, minutes: nat) | Minutes(minutes: nat)

  const MinuteMs: int := 60000
  const HourMs: int := 3600000

  /** The reading of an uptime of `ms` milliseconds: the largest unit that is
      not zero and the next one down, each truncated; the reading is a lower
      bound of the uptime, short of it by less than one unit of its last field. */
  function UptimeParts(ms: int): (u: Uptime)
    ensures ms < MinuteMs <==> u == UnderAMinute
    ensures u.Days? ==> u.days >= 1 && u.hours < 24
    ensures u.Days? ==> (u.days * 24 + u.hours) * HourMs <= ms < (u.days * 24 + u.hours + 1) * HourMs
    ensures u.Hours? ==> 1 <= u.hours < 24 && u.minutes < 60
    ensures u.Hours? ==> (u.hours * 60 + u.minutes) * MinuteMs <= ms < (u.hours * 60 + u.minutes + 1) * MinuteMs
    ensures u.Minutes? ==> 1 <= u.minutes <= 59 && u.minutes * MinuteMs <= ms < (u.minutes + 1) * MinuteMs
  {
    if ms < MinuteMs then UnderAMinute
    else
      var minutes := ms / MinuteMs;
      var hours := minutes / 60;
      var days := hours / 24;
      assert ms == MinuteMs * minutes + ms % MinuteMs;
      assert minutes == 60 * hours + minutes % 60;
      assert hours == 24 * days + hours % 24;
      HourBounds(ms, minutes, hours);
      if days > 0 then Days(days, hours % 24)
      else if hours > 0 then Hours(hours, minutes % 60)
      else Minutes(minutes)
  }

  /** Whole hours bound the uptime within one hour. */
  lemma HourBounds(ms: int, minutes: int, hours: int)
    requires 0 <= ms - MinuteMs * minutes < MinuteMs
    requires 0 <= minutes - 60 * hours < 60
    ensures hours * HourMs <= ms < (hours + 1) * HourMs
  {
  }

  /** The text shown for each reading. */
  function Render(u: Uptime): string {
    match u
    case UnderAMinute => "moins d'une minute"
    case Days(d, h) => NatToString(d) + "j " + NatToString(h) + "h"
    case Hours(h, m) => NatToString(h) + "h " + NatToString(m) + "min"
    case Minutes(m) => NatToString(m) + "min"
  }

  /** `formatUptime`. */
  function FormatUptime(uptimeMs: int): (r: string)
    ensures uptimeMs < MinuteMs ==> r == "moins d'une minute"
    ensures r == Render(UptimeParts(uptimeMs))
  {
    if uptimeMs < MinuteMs then "moins d'une minute"
    else
      var minutes := uptimeMs / MinuteMs;
      var hours := minutes / 60;
      var days := hours / 24;
      if days > 0 then NatToString(days) + "j " + NatToString(hours % 24) + "h"
      else if hours > 0 then NatToString(hours) + "h " + NatToString(minutes % 60) + "min"
      else NatToString(minutes) + "min"
  }

  /** The length of the run of digits that starts `s`. */
  function DigitRun(s: string): (n: nat)
    ensures n <= |s|
    ensures forall i :: 0 <= i < n ==> IsDigit(s[i])
    ensures n < |s| ==> !IsDigit(s[n])
  {
    if s != [] && IsDigit(s[0]) then 1 + DigitRun(s[1..]) else 0
  }

  /** Digits followed by a non-digit: the run stops exactly at the non-digit. */
  lemma {:induction false} DigitRunStops(d: string, x: string)
    requires forall i :: 0 <= i < |d| ==> IsDigit(d[i])
    requires x != [] && !IsDigit(x[0])
    ensures DigitRun(d + x) == |d|
  {
    if d == [] {
      assert d + x == x;
    } else {
      assert (d + x)[1..] == d[1..] + x;
      DigitRunStops(d[1..], x);
    }
  }

  /** A number's digits end where the first non-digit stands: two texts made
      of a number and a tail starting with a non-digit agree only when both
      numbers and both tails do. */
  lemma NumberThenTail(a: nat, x: string, b: nat, y: string)
    requires x != [] && !IsDigit(x[0]) && y != [] && !IsDigit(y[0])
    requires NatToString(a) + x == NatToString(b) + y
    ensures a == b && x == y
  {
    var sa, sb := NatToString(a), NatToString(b);
    var s := sa + x;
    DigitRunStops(sa, x);
    DigitRunStops(sb, y);
    assert sa == s[..|sa|] == sb;
    NatToStringInjective(a, b);
    assert x == s[|sa|..] == y;
  }

  /** The number a reading's text starts with. */
  function Lead(u: Uptime): nat
    requires !u.UnderAMinute?
  {
    match u
    case Days(d, _) => d
    case Hours(h, _) => h
    case Minutes(m) => m
  }

  /** The rest of a reading's text, after its leading number. */
  function Tail(u: Uptime): (t: string)
    requires !u.UnderAMinute?
    ensures |t| >= 3 && !IsDigit(t[0])
  {
    match u
    case Days(_, h) => "j " + NatToString(h) + "h"
    case Hours(_, m) => "h " + NatToString(m) + "min"
    case Minutes(_) => "min"
  }

  lemma RenderSplit(u: Uptime)
    requires !u.UnderAMinute?
    ensures Render(u) == NatToString(Lead(u)) + Tail(u)
    ensures IsDigit(Render(u)[0]) && Render(u) != Render(UnderAMinute)
  {
  }

  /** Readings of the same kind with the same leading number and the same
      rest of text are the same reading. */
  lemma TailInjective(u: Uptime, v: Uptime)
    requires !u.UnderAMinute? && !v.UnderAMinute?
    requires Lead(u) == Lead(v) && Tail(u) == Tail(v)
    ensures u == v
  {
    var t := Tail(u);
    if u.Days? {
      assert t[0] == 'j';
      assert v.Days?;
      assert t[2..] == NatToString(u.hours) + "h" == NatToString(v.hours) + "h";
      NumberThenTail(u.hours, "h", v.hours, "h");
    } else if u.Hours? {
      assert t[0] == 'h' && t[1] == ' ';
      assert v.Hours?;
      assert t[2..] == NatToString(u.minutes) + "min" == NatToString(v.minutes) + "min";
      NumberThenTail(u.minutes, "min", v.minutes, "min");
    } else {
      assert t[0] == 'm';
      assert v.Minutes?;
    }
  }

  /** Different readings give different texts: the text determines the reading. */
  lemma RenderInjective(u: Uptime, v: Uptime)
    requires Render(u) == Render(v)
    ensures u == v
  {
    if u.UnderAMinute? && !v.UnderAMinute? {
      RenderSplit(v);
    } else if !u.UnderAMinute? && v.UnderAMinute? {
      RenderSplit(u);
    } else if !u.UnderAMinute? {
      RenderSplit(u);
      RenderSplit(v);
      NumberThenTail(Lead(u), Tail(u), Lead(v), Tail(v));
      TailInjective(u, v);
    }
  }

  /** Two uptimes show the same text exactly when they have the same reading. */
  lemma SameTextSameReading(ms1: int, ms2: int)
    ensures FormatUptime(ms1) == FormatUptime(ms2) <==> UptimeParts(ms1) == UptimeParts(ms2)
  {
    if FormatUptime(ms1) == FormatUptime(ms2) {
      RenderInjective(UptimeParts(ms1), UptimeParts(ms2));
    }
  }
}
