// The two patterns meeting.process_meeting reads a saved transcript with,
// logline_re for spoken lines and loglineAction_re for actions, written out
// as the matches they admit, and the proof that they read back the lines
// Meeting.addrawline writes.
module LogPatterns {
  import opened Wrappers
  import opened Strings
  import opened Clock

  /** The three groups of a log-line match: the time stamp, the nick and the text. */
  datatype LogFields = LogFields(stamp: string, nick: string, text: string)

  /** `[0-9: ]`. */
  predicate StampChar(c: char) { IsDigit(c) || c == ':' || c == ' ' }

  /** The only character the patterns' ` *` runs match. */
  predicate Blank(c: char) { c == ' ' }

  predicate NotBlank(c: char) { c != ' ' }

  predicate NotClose(c: char) { c != '>' }

  /** `[@%&+ ]`: the channel-mode sign IRC clients print before a nick. */
  predicate ModeChar(c: char) { c == '@' || c == '%' || c == '&' || c == '+' || c == ' ' }

  /**
   * The common head `^\[?([0-9: ]*?)\]? *` of both patterns, followed by
   * the character `opener` (`<` or `*`): the stamp group and the index just
   * past the opener.  The stamp is the run of `[0-9: ]` after an optional
   * `[`.  When the opener follows that run directly, the lazy group leaves
   * the run's trailing blanks to ` *`; after a `]` it keeps the whole run.
   * These are the only ways the head can match, so backtracking into it
   * never yields another match.
   */
  function StampThen(line: string, opener: char): (r: Option<(string, nat)>)
    ensures r.Some? ==> 1 <= r.value.1 <= |line| && line[r.value.1 - 1] == opener
  {
    var i0 := if |line| > 0 && line[0] == '[' then 1 else 0;
    var j := SkipWhile(line, i0, StampChar);
    if j < |line| && line[j] == opener then Some((RStrip(line[i0..j], Blank), j + 1))
    else if j < |line| && line[j] == ']' then
      var k := SkipWhile(line, j + 1, Blank);
      if k < |line| && line[k] == opener then Some((line[i0..j], k + 1)) else None
    else None
  }

  /**
   * logline_re, `^\[?([0-9: ]*?)\]? *<[@%&+ ]?([^>]+)> *(.*?) *$`: the nick
   * runs from after the `<` (and one mode sign, unless that would leave it
   * empty) to the first `>`; the text is the rest without its leading and
   * trailing blanks.  process_meeting only matches the pieces of a split on
   * newlines, so a line never holds the `\n` that `.` and `$` treat apart.
   */
  function SpokenFields(line: string): (r: Option<LogFields>) {
    match StampThen(line, '<')
    case None => None
    case Some((stamp, p)) =>
      match NickThenText(line, p)
      case None => None
      case Some((nick, rest)) => Some(LogFields(stamp, nick, Strip(rest, Blank)))
  }

  /** `[@%&+ ]?([^>]+)>` from index `p`: the nick and what follows the `>`. */
  function NickThenText(line: string, p: nat): (r: Option<(string, string)>)
    requires p <= |line|
  {
    var p1 := if p < |line| && ModeChar(line[p]) then p + 1 else p;
    var q := SkipWhile(line, p1, NotClose);
    if p1 < q < |line| then Some((line[p1..q], line[q + 1..]))
    else if p1 == p + 1 && q == p1 && q < |line| then Some((line[p..p1], line[q + 1..]))
    else None
  }

  /**
   * loglineAction_re, `^\[?([0-9: ]*?)\]? *\* *([^ ]+) *(.*?) *$`: the nick
   * is the first run of non-blanks after the `*`, the text the rest without
   * its leading and trailing blanks.
   */
  function ActionFields(line: string): (r: Option<LogFields>) {
    match StampThen(line, '*')
    case None => None
    case Some((stamp, p)) =>
      match ActorThenText(line, p)
      case None => None
      case Some((nick, rest)) => Some(LogFields(stamp, nick, Strip(rest, Blank)))
  }

  /** ` *([^ ]+)` from index `p`: the nick and what follows it. */
  function ActorThenText(line: string, p: nat): (r: Option<(string, string)>)
    requires p <= |line|
  {
    var k := SkipWhile(line, p, Blank);
    var e := SkipWhile(line, k, NotBlank);
    if e == k then None else Some((line[k..e], line[e..]))
  }

  /** A stamp as strftime("%H:%M") writes it: digits and colons, at least one. */
  predicate ClockText(stamp: string) {
    stamp != [] && forall k | 0 <= k < |stamp| :: IsDigit(stamp[k]) || stamp[k] == ':'
  }

  /** SkipWhile stops exactly at `j` when `p` holds up to `j` and fails at `j`. */
  lemma SkipWhileAt(s: string, i: nat, j: nat, p: char -> bool)
    requires i <= j <= |s|
    requires forall k | i <= k < j :: p(s[k])
    requires j == |s| || !p(s[j])
    ensures SkipWhile(s, i, p) == j
  {
  }

  /** Leading blanks before `x` do not change its blank-strip. */
  lemma StripBlankLead(x: string)
    ensures Strip(" " + x, Blank) == Strip(x, Blank)
  {
    var y := " " + x;
    var a := SkipWhile(x, 0, Blank);
    SkipWhileAt(y, 0, a + 1, Blank);
    assert y[a + 1..] == x[a..];
  }

  /** Trailing blanks are dropped from a stamp that ends in a digit or a colon. */
  lemma RStripStamp(stamp: string)
    requires ClockText(stamp)
    ensures RStrip(stamp + " ", Blank) == stamp
  {
    var s := stamp + " ";
    assert s[..|s| - 1] == stamp;
    assert !Blank(stamp[|stamp| - 1]);
  }

  /** The head of a line `stamp <opener>...` yields the stamp. */
  lemma StampHead(stamp: string, opener: char, rest: string)
    requires ClockText(stamp) && !StampChar(opener)
    ensures StampThen(stamp + " " + [opener] + rest, opener) == Some((stamp, |stamp| + 2))
  {
    var line := stamp + " " + [opener] + rest;
    var n := |stamp|;
    assert line[0] == stamp[0];
    assert forall k | 0 <= k < n :: line[k] == stamp[k];
    SkipWhileAt(line, 0, n + 1, StampChar);
    assert line[..n + 1] == stamp + " ";
    assert line[0..n + 1] == line[..n + 1];
    RStripStamp(stamp);
  }

  /** SkipWhile over `a + b` from inside `b` is SkipWhile over `b`, shifted. */
  lemma {:induction false} SkipWhileShift(a: string, b: string, i: nat, p: char -> bool)
    requires i <= |b|
    ensures SkipWhile(a + b, |a| + i, p) == |a| + SkipWhile(b, i, p)
    decreases |b| - i
  {
    if i < |b| {
      assert (a + b)[|a| + i] == b[i];
      if p(b[i]) {
        SkipWhileShift(a, b, i + 1, p);
      }
    }
  }

  /** NickThenText from a nick's first character, with no mode sign before it. */
  lemma NickThenTextAt(line: string, p: nat, q: nat)
    requires p < q < |line| && !ModeChar(line[p]) && SkipWhile(line, p, NotClose) == q
    ensures NickThenText(line, p) == Some((line[p..q], line[q + 1..]))
  {
  }

  /** The nick part of `<nick> text`, after the `<` at the end of `a`. */
  lemma NickThenTextOf(a: string, nick: string, text: string)
    requires nick != [] && '>' !in nick && !ModeChar(nick[0])
    ensures NickThenText(a + (nick + "> " + text), |a|) == Some((nick, " " + text))
  {
    var b := nick + "> " + text;
    var line := a + b;
    var n := |nick|;
    assert line[|a|] == nick[0];
    assert forall k | 0 <= k < n :: NotClose(b[k]) by {
      forall k | 0 <= k < n ensures NotClose(b[k]) {
        assert b[k] == nick[k] && nick[k] in nick;
      }
    }
    assert b[n] == '>';
    SkipWhileAt(b, 0, n, NotClose);
    SkipWhileShift(a, b, 0, NotClose);
    var q := |a| + n;
    NickThenTextAt(line, |a|, q);
    assert line[|a|..q] == nick;
    assert line[q + 1..] == " " + text;
  }

  /** logline_re reads back `stamp <nick> text`. */
  lemma SpokenOf(stamp: string, nick: string, text: string)
    requires ClockText(stamp) && nick != [] && '>' !in nick && !ModeChar(nick[0])
    ensures SpokenFields(stamp + " <" + nick + "> " + text) == Some(LogFields(stamp, nick, Strip(text, Blank)))
  {
    var rest := nick + "> " + text;
    var line := stamp + " <" + nick + "> " + text;
    assert line == stamp + " <" + rest;
    assert StampThen(line, '<') == Some((stamp, |stamp| + 2)) by {
      assert line == stamp + " " + ['<'] + rest;
      StampHead(stamp, '<', rest);
    }
    assert NickThenText(line, |stamp| + 2) == Some((nick, " " + text)) by {
      NickThenTextOf(stamp + " <", nick, text);
    }
    StripBlankLead(text);
  }

  /** The actor part of `* nick text`, after the `*` at the end of `a`. */
  lemma ActorThenTextOf(a: string, nick: string, text: string)
    requires nick != [] && ' ' !in nick
    ensures ActorThenText(a + (" " + nick + " " + text), |a|) == Some((nick, " " + text))
  {
    var b := " " + nick + " " + text;
    var line := a + b;
    var n := |nick|;
    assert b[0] == ' ' && b[1] == nick[0];
    SkipWhileAt(b, 0, 1, Blank);
    SkipWhileShift(a, b, 0, Blank);
    assert forall k | 1 <= k < n + 1 :: NotBlank(b[k]) by {
      forall k | 1 <= k < n + 1 ensures NotBlank(b[k]) {
        assert b[k] == nick[k - 1] && nick[k - 1] in nick;
      }
    }
    assert b[n + 1] == ' ';
    SkipWhileAt(b, 1, n + 1, NotBlank);
    SkipWhileShift(a, b, 1, NotBlank);
    assert line[|a| + 1..|a| + n + 1] == nick;
    assert line[|a| + n + 1..] == " " + text;
  }

  /** loglineAction_re reads back `stamp * nick text`. */
  lemma ActionOf(stamp: string, nick: string, text: string)
    requires ClockText(stamp) && nick != [] && ' ' !in nick
    ensures ActionFields(stamp + " * " + nick + " " + text) == Some(LogFields(stamp, nick, Strip(text, Blank)))
  {
    var rest := " " + nick + " " + text;
    var line := stamp + " * " + nick + " " + text;
    assert line == stamp + " *" + rest;
    assert StampThen(line, '*') == Some((stamp, |stamp| + 2)) by {
      assert line == stamp + " " + ['*'] + rest;
      StampHead(stamp, '*', rest);
    }
    assert ActorThenText(line, |stamp| + 2) == Some((nick, " " + text)) by {
      ActorThenTextOf(stamp + " *", nick, text);
    }
    StripBlankLead(text);
  }

  /** An action line is no spoken line: the head is followed by `*`, not `<`. */
  lemma ActionNotSpoken(stamp: string, nick: string, text: string)
    requires ClockText(stamp)
    ensures SpokenFields(stamp + " * " + nick + " " + text).None?
  {
    var line := stamp + " * " + nick + " " + text;
    var n := |stamp|;
    assert forall k | 0 <= k < n :: line[k] == stamp[k];
    assert line[0] == stamp[0] && line[n] == ' ' && line[n + 1] == '*';
    SkipWhileAt(line, 0, n + 1, StampChar);
  }

  /** strftime("%H:%M") is two pairs of digits around a colon. */
  lemma ShortStamp(t: Time)
    requires t.hour <= 23 && t.minute <= 59
    ensures ClockText(Strftime("%H:%M", t))
  {
    var h, m := Pad2(t.hour), Pad2(t.minute);
    Pad2Digits(t.hour); Pad2Digits(t.minute);
    assert Strftime("%H:%M", t) == h + ":" + m by {
      assert "%H:%M"[2..] == ":%M";
      assert ":%M"[1..] == "%M";
      assert "%M"[2..] == "";
    }
  }

}
