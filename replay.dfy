// meeting.process_meeting: a saved transcript replayed into a fresh
// meeting.  Each line of the text is matched against the spoken-line
// pattern logline_re and then, on the text that match left, against the
// action pattern loglineAction_re; every match is fed to addline.
module Replay {
  import opened Wrappers
  import opened Strings
  import opened Clock
  import opened LogPatterns
  import opened MeetingSteps
  import opened MeetingHandlers
  import opened HandlerLaws
  import opened MeetingObject

  /** The action pattern tried on `text`: a match is added as an ACTION line. */
  function ActionReplay(s: MeetingState, text: string, now: Time): (r: Stepped)
    requires Inv(s)
    ensures Inv(r.state)
  {
    match ActionFields(text)
    case None => Stepped(s, None)
    case Some(g) => LineStep(s, g.nick, "ACTION " + g.text, false, TimeOr(ParseTime(g.stamp), now), now)
  }

  /**
   * One pass of process_meeting's loop: a spoken line gives the meeting its
   * owner and only chair if it has none and is added; then the action
   * pattern is tried on what is left in `line`, the spoken text when the
   * first pattern matched.  An exception from addline ends the replay.
   */
  function ReplayLine(s: MeetingState, line: string, now: Time): (r: Stepped)
    requires Inv(s)
    ensures Inv(r.state)
  {
    match SpokenFields(line)
    case None => ActionReplay(s, line, now)
    case Some(f) => SpokenReplay(s, f, now)
  }

  /**
   * A spoken line: the first speaker becomes the owner, the line is added
   * with its own time, and its text is then tried as an action line.
   */
  function SpokenReplay(s: MeetingState, f: LogFields, now: Time): (r: Stepped)
    requires Inv(s)
    ensures Inv(r.state)
  {
    var s1 := if s.owner.None? || s.owner == Some("") then Owned(s, f.nick) else s;
    var r1 := LineStep(s1, f.nick, f.text, false, TimeOr(ParseTime(f.stamp), now), now);
    if r1.raised.Some? then r1 else ActionReplay(r1.state, f.text, now)
  }

  /** The loop over the lines, stopped by the first exception. */
  function ReplayLines(s: MeetingState, lines: seq<string>, now: Time): (r: Stepped)
    requires Inv(s)
    ensures Inv(r.state)
    decreases |lines|
  {
    if lines == [] then Stepped(s, None)
    else
      var r1 := ReplayLine(s, lines[0], now);
      if r1.raised.Some? then r1 else ReplayLines(r1.state, lines[1..], now)
  }

  /**
   * The meeting process_meeting starts from: Meeting(channel, owner=None,
   * filename, writeRawLog=False) with no callbacks, `cfg` standing for the
   * configuration extraConfig gives, and dontSave set when asked for.
   */
  function ReplayStart(cfg: MeetingConfig, channel: string, filename: string, dontSave: bool): (r: MeetingState)
    ensures Inv(r) && r.owner.None? && r.lines == []
  {
    var c := if dontSave then cfg.(files := cfg.files.(dontSave := true)) else cfg;
    Fresh(c, channel, None, "", filename, false, false, None, "nonetwork")
  }

  function Replayed(contents: string, channel: string, filename: string, cfg: MeetingConfig, dontSave: bool, now: Time): Stepped {
    ReplayLines(ReplayStart(cfg, channel, filename, dontSave), Split(contents, "\n"), now)
  }

  /** The action pattern tried on `text`, on the meeting object. */
  method ReplayAction(m: Meeting, text: string, now: Time) returns (raised: Option<Error>)
    requires m.Valid()
    modifies m
    ensures Stepped(m.Snap(), raised) == ActionReplay(old(m.Snap()), text, now)
    ensures m.Valid()
  {
    raised := None;
    var action := ActionFields(text);
    if action.Some? {
      var g := action.value;
      raised := m.AddLine(g.nick, "ACTION " + g.text, false, ParseTime(g.stamp), now);
    }
  }

  /** One line of the loop, on the meeting object. */
  method ReplayOne(m: Meeting, line: string, now: Time) returns (raised: Option<Error>)
    requires m.Valid()
    modifies m
    ensures Stepped(m.Snap(), raised) == ReplayLine(old(m.Snap()), line, now)
    ensures m.Valid()
  {
    var spoken := SpokenFields(line);
    if spoken.None? {
      raised := ReplayAction(m, line, now);
    } else {
      raised := ReplaySpoken(m, spoken.value, now);
    }
  }

  /** The spoken-line branch of the loop body of process_meeting. */
  method ReplaySpoken(m: Meeting, f: LogFields, now: Time) returns (raised: Option<Error>)
    requires m.Valid()
    modifies m
    ensures Stepped(m.Snap(), raised) == SpokenReplay(old(m.Snap()), f, now)
    ensures m.Valid()
  {
    ghost var s0 := m.Snap();
    ghost var s1 := if s0.owner.None? || s0.owner == Some("") then Owned(s0, f.nick) else s0;
    if m.setup.owner.None? || m.setup.owner == Some("") {
      m.TakeOwner(f.nick);
    }
    assert m.Snap() == s1;
    raised := m.AddLine(f.nick, f.text, false, ParseTime(f.stamp), now);
    ghost var r1 := LineStep(s1, f.nick, f.text, false, TimeOr(ParseTime(f.stamp), now), now);
    assert Stepped(m.Snap(), raised) == r1;
    if raised.None? {
      raised := ReplayAction(m, f.text, now);
    }
  }

  /** One pass of the loop over the lines, unfolded. */
  lemma ReplayLinesStep(s: MeetingState, lines: seq<string>, i: nat, now: Time)
    requires Inv(s) && i < |lines|
    ensures var r1 := ReplayLine(s, lines[i], now);
      ReplayLines(s, lines[i..], now) == if r1.raised.Some? then r1 else ReplayLines(r1.state, lines[i + 1..], now)
  {
    assert lines[i..][0] == lines[i];
    assert lines[i..][1..] == lines[i + 1..];
  }

  /** process_meeting; `now` is what time.localtime() reads for a line whose stamp does not parse. */
  method ProcessMeeting(contents: string, channel: string, filename: string, cfg: MeetingConfig,
                        dontSave: bool, now: Time) returns (m: Meeting, raised: Option<Error>)
    ensures fresh(m) && m.Valid()
    ensures Stepped(m.Snap(), raised) == Replayed(contents, channel, filename, cfg, dontSave, now)
  {
    var c := if dontSave then cfg.(files := cfg.files.(dontSave := true)) else cfg;
    m := new Meeting(c, channel, None, "", filename, false, false, None, "nonetwork");
    var lines := Split(contents, "\n");
    raised := None;
    var i := 0;
    while i < |lines| && raised.None?
      invariant 0 <= i <= |lines|
      invariant fresh(m) && m.Valid()
      invariant raised.None? ==> ReplayLines(m.Snap(), lines[i..], now) == Replayed(contents, channel, filename, cfg, dontSave, now)
      invariant raised.Some? ==> Stepped(m.Snap(), raised) == Replayed(contents, channel, filename, cfg, dontSave, now)
    {
      ReplayLinesStep(m.Snap(), lines, i, now);
      raised := ReplayOne(m, lines[i], now);
      i := i + 1;
    }
  }

  // ---- The patterns read back what addrawline writes ----

  /**
   * A spoken line addrawline wrote is read back by logline_re: the stamp
   * parses to its hour and minute, the nick is the speaker's and the text
   * is the line without its leading and trailing blanks.
   */
  lemma ReplaySpokenLogLine(nick: string, line: string, t: Time)
    requires nick != [] && '>' !in nick && !ModeChar(nick[0])
    requires forall c | c in line :: !IsMarker(c)
    requires !StartsWith(line, "ACTION")
    requires t.hour <= 23 && t.minute <= 59
    ensures var f := SpokenFields(LogLine(nick, line, t));
      f == Some(LogFields(Strftime("%H:%M", t), nick, Strip(line, Blank)))
      && ParseTime(f.value.stamp) == Some(Time(1900, 1, 1, t.hour, t.minute, 0))
  {
    LogLineSpoken(nick, line, t);
    ShortStamp(t);
    SpokenOf(Strftime("%H:%M", t), nick, line);
    ParseTimeShortRoundTrip(t);
  }

  /**
   * An ACTION line addrawline wrote is no spoken line, and loglineAction_re
   * reads back the nick and the action text.
   */
  lemma ReplayActionLogLine(nick: string, action: string, t: Time)
    requires nick != [] && ' ' !in nick
    requires forall c | c in action :: !IsMarker(c)
    requires t.hour <= 23 && t.minute <= 59
    ensures var logged := LogLine(nick, "ACTION " + action, t);
      SpokenFields(logged).None?
      && ActionFields(logged) == Some(LogFields(Strftime("%H:%M", t), nick, Strip(LStrip(action, IsSpace), Blank)))
  {
    var line := "ACTION " + action;
    assert forall c | c in line :: !IsMarker(c) by {
      forall c | c in line ensures !IsMarker(c) {
        if c !in action {
          assert c in "ACTION ";
        }
      }
    }
    StripNothing(line, IsMarker);
    assert line[..6] == "ACTION" && line[7..] == action;
    var stamp := Strftime("%H:%M", t);
    ShortStamp(t);
    assert LogLine(nick, line, t) == stamp + " * " + nick + " " + LStrip(action, IsSpace);
    ActionOf(stamp, nick, LStrip(action, IsSpace));
    ActionNotSpoken(stamp, nick, LStrip(action, IsSpace));
  }
}
