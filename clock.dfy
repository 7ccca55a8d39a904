// Timestamps: the broken-down time the bot stores, the strftime directives
// its patterns use, and meeting.parse_time, which reads the clock prefix of
// a replayed log line with strptime.
module Clock {
  import opened Wrappers
  import opened Strings

  /** The fields of a time.struct_time that the bot formats. */
  datatype Time = Time(year: nat, month: nat, day: nat, hour: nat, minute: nat, second: nat)

  /** Two-digit, zero-padded decimal (strftime's %H, %M, %S, %m, %d). */
  function Pad2(n: nat): (r: string)
    ensures n < 100 ==> |r| == 2
  {
    if n < 10 then "0" + NatToString(n)
    else
      assert NatToString(n) == NatToString(n / 10) + [('0' as int + n % 10) as char];
      NatToString(n)
  }

  function Directive(c: char, t: Time): string {
    match c
    case 'H' => Pad2(t.hour)
    case 'M' => Pad2(t.minute)
    case 'S' => Pad2(t.second)
    case 'Y' => NatToString(t.year)
    case 'm' => Pad2(t.month)
    case 'd' => Pad2(t.day)
    case 'F' => NatToString(t.year) + "-" + Pad2(t.month) + "-" + Pad2(t.day)
    case '%' => "%"
    case _ => ['%', c]
  }

  /** time.strftime(fmt, t) for %H %M %S %Y %m %d %F and %%; other text is copied. */
  function Strftime(fmt: string, t: Time): string
    decreases |fmt|
  {
    if fmt == [] then []
    else if fmt[0] == '%' && |fmt| >= 2 then Directive(fmt[1], t) + Strftime(fmt[2..], t)
    else [fmt[0]] + Strftime(fmt[1..], t)
  }

  /** Text without a `%` comes out of strftime unchanged. */
  lemma {:induction false} StrftimeLiteral(a: string, b: string, t: Time)
    requires '%' !in a
    ensures Strftime(a + b, t) == a + Strftime(b, t)
  {
    if a != [] {
      assert (a + b)[1..] == a[1..] + b;
      StrftimeLiteral(a[1..], b, t);
      assert a == [a[0]] + a[1..];
    } else {
      assert a + b == b;
    }
  }

  function DigitValue(c: char): nat
    requires IsDigit(c)
  {
    c as int - '0' as int
  }

  /**
   * One strptime field: `%H` is `2[0-3]|[0-1]\d|\d`, `%M` is `[0-5]\d|\d`
   * and `%S` is `6[0-1]|[0-5]\d|\d`; each accepts one or two ASCII digits
   * whose value is at most `max` (23, 59 and 61).
   */
  function ParseField(s: string, max: nat): (r: Option<nat>)
    ensures r.Some? ==> r.value <= max
  {
    if |s| == 1 && IsDigit(s[0]) && DigitValue(s[0]) <= max then Some(DigitValue(s[0]))
    else if |s| == 2 && IsDigit(s[0]) && IsDigit(s[1])
      && 10 * DigitValue(s[0]) + DigitValue(s[1]) <= max
    then Some(10 * DigitValue(s[0]) + DigitValue(s[1]))
    else None
  }

  /**
   * time.strptime(s, "%H:%M:%S") (withSeconds) or time.strptime(s, "%H:%M"):
   * the whole string must match; the date defaults to 1900-01-01.
   */
  function ParseClock(s: string, withSeconds: bool): (r: Option<Time>)
    ensures r.Some? ==> r.value.hour <= 23 && r.value.minute <= 59 && r.value.second <= 61
  {
    var parts := Split(s, ":");
    if withSeconds && |parts| == 3 then
      match (ParseField(parts[0], 23), ParseField(parts[1], 59), ParseField(parts[2], 61))
      case (Some(h), Some(m), Some(sec)) => Some(Time(1900, 1, 1, h, m, sec))
      case _ => None
    else if !withSeconds && |parts| == 2 then
      match (ParseField(parts[0], 23), ParseField(parts[1], 59))
      case (Some(h), Some(m)) => Some(Time(1900, 1, 1, h, m, 0))
      case _ => None
    else None
  }

  /** meeting.parse_time: the first format that parses, else None. */
  function ParseTime(s: string): (r: Option<Time>)
    ensures ParseClock(s, true).Some? ==> r == ParseClock(s, true)
    ensures ParseClock(s, true).None? ==> r == ParseClock(s, false)
  {
    match ParseClock(s, true)
    case Some(t) => Some(t)
    case None => ParseClock(s, false)
  }

  lemma Pad2Digits(n: nat)
    requires n < 100
    ensures |Pad2(n)| == 2 && IsDigit(Pad2(n)[0]) && IsDigit(Pad2(n)[1])
    ensures 10 * DigitValue(Pad2(n)[0]) + DigitValue(Pad2(n)[1]) == n
  {
    if n >= 10 {
      assert NatToString(n) == NatToString(n / 10) + [('0' as int + n % 10) as char];
    }
  }

  lemma ParseFieldPad2(n: nat, max: nat)
    requires n <= max && n < 100
    ensures ParseField(Pad2(n), max) == Some(n)
  {
    Pad2Digits(n);
  }

  lemma StrftimeClock(t: Time)
    ensures Strftime("%H:%M:%S", t) == Pad2(t.hour) + ":" + Pad2(t.minute) + ":" + Pad2(t.second)
  {
    assert "%H:%M:%S"[2..] == ":%M:%S";
    assert ":%M:%S"[1..] == "%M:%S";
    assert "%M:%S"[2..] == ":%S";
    assert ":%S"[1..] == "%S";
    assert "%S"[2..] == "";
  }

  lemma Pad2NoColon(n: nat)
    requires n < 100
    ensures ':' !in Pad2(n)
  {
    Pad2Digits(n);
    assert Pad2(n) == [Pad2(n)[0], Pad2(n)[1]];
  }

  /** Three colon-free fields that each parse make a "%H:%M:%S" clock. */
  lemma ParseClockFields(h: string, m: string, s: string, a: nat, b: nat, c: nat)
    requires ':' !in h && ':' !in m && ':' !in s
    requires ParseField(h, 23) == Some(a) && ParseField(m, 59) == Some(b) && ParseField(s, 61) == Some(c)
    ensures ParseClock(h + ":" + m + ":" + s, true) == Some(Time(1900, 1, 1, a, b, c))
  {
    SplitThree(h, m, s);
  }

  lemma SplitThree(h: string, m: string, s: string)
    requires ':' !in h && ':' !in m && ':' !in s
    ensures Split(h + ":" + m + ":" + s, ":") == [h, m, s]
  {
    SplitWithoutChar(s, ':');
    SplitAtChar(m, ':', s);
    assert h + ":" + m + ":" + s == h + ":" + (m + ":" + s);
    SplitAtChar(h, ':', m + ":" + s);
  }

  /** strptime reads back what strftime("%H:%M:%S") printed (the date is lost). */
  lemma ParseTimeRoundTrip(t: Time)
    requires t.hour <= 23 && t.minute <= 59 && t.second <= 59
    ensures ParseTime(Strftime("%H:%M:%S", t)) == Some(Time(1900, 1, 1, t.hour, t.minute, t.second))
  {
    StrftimeClock(t);
    Pad2NoColon(t.hour); Pad2NoColon(t.minute); Pad2NoColon(t.second);
    ParseFieldPad2(t.hour, 23);
    ParseFieldPad2(t.minute, 59);
    ParseFieldPad2(t.second, 61);
    ParseClockFields(Pad2(t.hour), Pad2(t.minute), Pad2(t.second), t.hour, t.minute, t.second);
  }

  /** The "%H:%M" fallback reads back the hour and minute of strftime("%H:%M"). */
  lemma {:induction false} ParseTimeShortRoundTrip(t: Time)
    requires t.hour <= 23 && t.minute <= 59
    ensures ParseTime(Strftime("%H:%M", t)) == Some(Time(1900, 1, 1, t.hour, t.minute, 0))
  {
    var h, m := Pad2(t.hour), Pad2(t.minute);
    Pad2Digits(t.hour); Pad2Digits(t.minute);
    assert Strftime("%H:%M", t) == h + ":" + m by {
      assert "%H:%M"[2..] == ":%M";
      assert ":%M"[1..] == "%M";
      assert "%M"[2..] == "";
    }
    assert ':' !in h && ':' !in m;
    SplitWithoutChar(m, ':');
    SplitAtChar(h, ':', m);
    ParseFieldPad2(t.hour, 23);
    ParseFieldPad2(t.minute, 59);
  }
}
