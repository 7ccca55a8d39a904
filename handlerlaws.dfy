// What the command language of a meeting guarantees, stated over the step
// functions of MeetingHandlers: every line is logged, chair-only commands
// ignore everyone else, the owner never loses chair rights, the minutes only
// grow except under #undo, and each command does what its help text says.
module HandlerLaws {
  import opened Wrappers
  import opened Strings
  import opened Clock
  import opened Dicts
  import opened Items
  import opened Grammar
  import opened Votes
  import opened MeetingSteps
  import opened ConfigSave
  import opened MeetingHandlers

  /** addline logs every line, whatever it triggers, and counts it for the speaker alone. */
  lemma LineLogged(s: MeetingState, nick: string, line: string, isop: bool, t: Time, now: Time)
    requires Inv(s)
    ensures var r := LineStep(s, nick, line, isop, t, now).state;
      r.lines == s.lines + [LogLine(nick, line, t)]
      && Count(r.attendees, nick) == Count(s.attendees, nick) + 1
      && (forall k | k != nick :: Count(r.attendees, k) == Count(s.attendees, k))
  {
    var s1 := Logged(s, nick, line, isop, t);
    var r := LineStep(s, nick, line, isop, t, now).state;
    assert Keeps(s1, r);
  }

  /** The owner, the configuration and the channel callbacks survive every line. */
  lemma OwnerStaysChair(s: MeetingState, nick: string, line: string, isop: bool, t: Time, now: Time)
    requires Inv(s) && s.owner.Some?
    ensures var r := LineStep(s, nick, line, isop, t, now).state;
      r.owner == s.owner && IsChairIn(r, s.owner.value) && r.config == s.config
  {
    var s1 := Logged(s, nick, line, isop, t);
    var r := LineStep(s, nick, line, isop, t, now).state;
    assert Keeps(s1, r);
  }

  /** A chair-only command from someone who is not a chair changes nothing and raises nothing. */
  lemma NonChairIgnored(h: Handler, s: MeetingState, nick: string, arg: string, linenum: nat, t: Time, now: Time)
    requires Inv(s) && ChairOnly(h) && !IsChairIn(s, nick)
    ensures HandlerStep(h, s, nick, arg, linenum, t, now) == Stepped(s, None)
  {
  }

  /** #topic: the line becomes the current topic and the last minutes item, and the channel topic is set. */
  lemma TopicSets(s: MeetingState, nick: string, line: string, linenum: nat, t: Time)
    requires Inv(s) && IsChairIn(s, nick)
    ensures var r := TopicStep(s, nick, line, linenum, t);
      r.currenttopic == line
      && r.minutes == s.minutes + [Item(TopicItem, nick, line, linenum, t)]
      && r.outbox == s.outbox + [TopicEvent(s.connected, s.lurk, TopicText(s.oldtopic, s.meetingTopic, line))]
  {
  }

  /**
   * #chair: exactly the non-empty names of the line join the chairs, each
   * name once; the roster reply raises only when there is no owner.
   */
  lemma ChairAdds(s: MeetingState, nick: string, line: string)
    requires Inv(s) && IsChairIn(s, nick)
    ensures var r := ChairStep(s, nick, line);
      s.chairs <= r.state.chairs
      && (forall x :: x in r.state.chairs <==> x in s.chairs || (x in NameTokens(line) && x != ""))
      && (r.raised.Some? <==> s.owner.None?)
      && (r.raised.Some? ==> r.state.outbox == ChairsAdded(s, NameTokens(line)).outbox)
      && (r.raised.None? ==>
            r.state.outbox == ChairsAdded(s, NameTokens(line)).outbox
                              + [Say(s, Roster("Current chairs: ", r.state.chairs, s.owner).value)])
  {
    AddNamesSpec(s.chairs, NameTokens(line));
  }

  /** #unchair: exactly the listed names leave the chairs; the owner stays chair all the same. */
  lemma UnchairRemoves(s: MeetingState, nick: string, line: string, o: string)
    requires Inv(s) && IsChairIn(s, nick) && s.owner == Some(o)
    ensures var r := UnchairStep(s, nick, line);
      (forall x :: x in r.state.chairs <==> x in s.chairs && !(x in NameTokens(line) && x != ""))
      && IsChairIn(r.state, o) && r.raised.None?
      && r.state.outbox == s.outbox + [Say(s, Roster("Current chairs: ", r.state.chairs, s.owner).value)]
  {
    RemoveNamesSpec(s.chairs, NameTokens(line));
  }

  /** #undo drops exactly the last item of the minutes, and does nothing when they are empty. */
  lemma UndoDropsLast(s: MeetingState, nick: string)
    requires Inv(s) && IsChairIn(s, nick)
    ensures var r := UndoStep(s, nick);
      (s.minutes == [] ==> r == s)
      && (s.minutes != [] ==> r.minutes + [s.minutes[|s.minutes| - 1]] == s.minutes)
  {
  }

  /**
   * The minutes only grow, by whole items at the end, under every command
   * but #undo, which only shortens them.
   */
  lemma MinutesGrow(h: Handler, s: MeetingState, nick: string, arg: string, linenum: nat, t: Time, now: Time)
    requires Inv(s)
    ensures var r := HandlerStep(h, s, nick, arg, linenum, t, now).state;
      if h == UndoCmd then r.minutes <= s.minutes else s.minutes <= r.minutes
  {
    var r := HandlerStep(h, s, nick, arg, linenum, t, now).state;
    if ItemHandler(h) {
      ItemMinutes(h, s, nick, arg, linenum, t);
      assert r == ItemStep(h, s, nick, arg, linenum, t);
    } else if PeopleHandler(h) {
      PeopleMinutes(h, s, nick, arg, linenum, t);
      assert r == PeopleStep(h, s, nick, arg, linenum, t).state;
    } else if SessionHandler(h) {
      SessionMinutes(h, s, nick, arg, linenum, t, now);
      assert r == SessionStep(h, s, nick, arg, linenum, t, now).state;
    } else {
      SettingMinutes(h, s, nick, arg);
      assert r == SettingStep(h, s, nick, arg);
    }
  }

  lemma ItemMinutes(h: Handler, s: MeetingState, nick: string, arg: string, linenum: nat, t: Time)
    requires Inv(s) && ItemHandler(h)
    ensures var r := ItemStep(h, s, nick, arg, linenum, t);
      if h == UndoCmd then r.minutes <= s.minutes else s.minutes <= r.minutes
  {
    var r := ItemStep(h, s, nick, arg, linenum, t);
    if h.TopicCmd? {
      assert r == TopicStep(s, nick, arg, linenum, t);
    } else if h.AgreedCmd? {
      assert r == AgreedStep(s, nick, arg, linenum, t);
    } else if h.UndoCmd? {
      assert r == UndoStep(s, nick);
    } else if h.ActionCmd? {
      assert r == ActionStep(s, nick, arg, linenum, t);
    }
  }

  lemma PeopleMinutes(h: Handler, s: MeetingState, nick: string, arg: string, linenum: nat, t: Time)
    requires Inv(s) && PeopleHandler(h)
    ensures s.minutes <= PeopleStep(h, s, nick, arg, linenum, t).state.minutes
  {
  }

  lemma SessionMinutes(h: Handler, s: MeetingState, nick: string, arg: string, linenum: nat, t: Time, now: Time)
    requires Inv(s) && SessionHandler(h)
    ensures s.minutes <= SessionStep(h, s, nick, arg, linenum, t, now).state.minutes
  {
  }

  lemma SettingMinutes(h: Handler, s: MeetingState, nick: string, arg: string)
    requires Inv(s) && !ItemHandler(h) && !PeopleHandler(h) && !SessionHandler(h)
    ensures s.minutes <= SettingStep(h, s, nick, arg).minutes
  {
  }

  /** #vote with no vote open opens one on the line, with no casts and an empty public list. */
  lemma VoteOpens(s: MeetingState, nick: string, line: string)
    requires Inv(s) && IsChairIn(s, nick) && s.activeVote == ""
    ensures var r := VoteStep(s, nick, line);
      r.activeVote == line && r.currentVote == [] && r.currentVoteStartLine == |s.lines|
      && HasKey(r.publicVoters, line) && Get(r.publicVoters, line) == []
      && r.outbox == s.outbox + [Say(s, "Please vote on: " + line), Say(s, PublicVoteHelp)]
  {
  }

  /** #vote while a vote is open only says which vote is open. */
  lemma VoteStillOpen(s: MeetingState, nick: string, line: string)
    requires Inv(s) && IsChairIn(s, nick) && s.activeVote != ""
    ensures VoteStep(s, nick, line) == s.(outbox := s.outbox + [Say(s, "Voting still open on: " + s.activeVote)])
  {
  }

  /**
   * #endvote: the motion carries exactly when the casts for outnumber the
   * casts against by the required margin; the summary is stored under the
   * motion with its start line, a Vote item records the result and the
   * vote closes.
   */
  lemma EndVoteRecords(s: MeetingState, nick: string, linenum: nat, t: Time)
    requires Inv(s) && IsChairIn(s, nick) && s.activeVote != ""
    ensures var r := EndVoteStep(s, nick, linenum, t);
      var vals := Values(s.currentVote);
      var carried := CountOf(vals, For) - CountOf(vals, Against) >= s.votesrequired;
      r.activeVote == "" && r.currentVote == [] && r.currentVoteStartLine == 0
      && r.minutes == s.minutes
         + [Item(VoteItem, nick, s.activeVote + " (" + (if carried then "Carried" else "Denied") + ")", linenum, t)]
      && HasKey(r.votes, s.activeVote)
      && Get(r.votes, s.activeVote).1 == s.currentVoteStartLine
      && Get(r.votes, s.activeVote).0 == Summary(Tally(vals), s.votesrequired)
      && Get(r.votes, s.activeVote).0 ==
           (if carried then "Motion carried" else "Motion denied")
           + " (For: " + NatToString(CountOf(vals, For)) + ", Against: " + NatToString(CountOf(vals, Against))
           + ", Abstained: " + NatToString(CountOf(vals, Abstain)) + ")"
      && r.outbox == s.outbox
         + [Say(s, "Voting ended on: " + s.activeVote),
            Say(s, "Votes for: " + NatToString(CountOf(vals, For)) + ", Votes against: "
                   + NatToString(CountOf(vals, Against)) + ", Abstentions: " + NatToString(CountOf(vals, Abstain))),
            Say(s, if carried then "Motion carried" else "Motion denied")]
  {
    TallyCounts(Values(s.currentVote));
  }

  /** #endvote from a chair with no vote open only says so. */
  lemma EndVoteIdle(s: MeetingState, nick: string, linenum: nat, t: Time)
    requires Inv(s) && IsChairIn(s, nick) && s.activeVote == ""
    ensures EndVoteStep(s, nick, linenum, t) == s.(outbox := s.outbox + [Say(s, "No vote in progress")])
  {
  }

  /** #voters with "everyone", "everybody" or "all" among the names lets everyone vote. */
  lemma VotersEveryone(s: MeetingState, nick: string, line: string)
    requires Inv(s) && IsChairIn(s, nick)
    requires exists i | 0 <= i < |NameTokens(line)| :: EveryoneToken(NameTokens(line)[i])
    ensures var r := VotersStep(s, nick, line);
      r.state.voters == [] && r.raised.None?
  {
    var k := FirstEveryone(NameTokens(line));
    assert k < |NameTokens(line)|;
  }

  /** #voters without such a word: the names join the voters, each once. */
  lemma VotersAdds(s: MeetingState, nick: string, line: string)
    requires Inv(s) && IsChairIn(s, nick)
    requires forall i | 0 <= i < |NameTokens(line)| :: !EveryoneToken(NameTokens(line)[i])
    ensures var r := VotersStep(s, nick, line);
      (forall x :: x in r.state.voters <==> x in s.voters || (x in NameTokens(line) && x != ""))
      && (r.raised.Some? <==> s.owner.None?)
      && (r.raised.Some? ==> r.state.outbox == VotersAdded(s, NameTokens(line)).outbox)
      && (r.raised.None? ==>
            r.state.outbox == VotersAdded(s, NameTokens(line)).outbox
                              + [Say(s, Roster("Current voters: ", r.state.voters, s.owner).value)])
  {
    var tokens := NameTokens(line);
    var k := FirstEveryone(tokens);
    assert k == |tokens|;
    assert tokens[..k] == tokens;
    AddNamesSpec(s.voters, tokens);
  }

  /** #nick makes every listed nick an attendee and changes nobody's line count. */
  lemma NickRegisters(s: MeetingState, line: string, x: string)
    requires Inv(s)
    ensures var r := NickStep(s, line);
      Count(r.attendees, x) == Count(s.attendees, x)
      && (x in NameTokens(line) && x != "" ==> HasKey(r.attendees, x))
      && (HasKey(s.attendees, x) ==> HasKey(r.attendees, x))
  {
    TouchAllSpec(s.attendees, NameTokens(line), x);
  }

  /** #restrictlogs as intended sets the flag and raises nothing. */
  lemma RestrictLogsSets(s: MeetingState, nick: string)
    requires Inv(s) && IsChairIn(s, nick)
    ensures var r := HandlerStep(RestrictLogsCmd, s, nick, "", 0, Time(0, 0, 0, 0, 0, 0), Time(0, 0, 0, 0, 0, 0));
      r.state.restrictlogs && r.raised.None?
  {
  }

  /** As written, #restrictlogs sets the flag, then raises, so the reply is never sent. */
  lemma RestrictLogsRaises(s: MeetingState, nick: string)
    requires Inv(s) && IsChairIn(s, nick)
    ensures var r := RestrictLogsAsWritten(s, nick);
      r.state.restrictlogs && r.raised == Some(NameError("RestrictPerm")) && r.state.outbox == s.outbox
  {
  }

  /** A line that is no command, no URL and no vote is only logged and saved. */
  lemma ChatOnlyLogged(s: MeetingState, nick: string, line: string, isop: bool, t: Time, now: Time)
    requires Inv(s)
    requires ParseCommand(line).None? && !IsUrlLine(line, s.config.urlProtocols) && !VoteShaped(line)
    ensures var r := LineStep(s, nick, line, isop, t, now).state;
      r == Logged(s, nick, line, isop, t).(written := r.written)
  {
  }

  /**
   * A `#word` that names no handler is only logged and saved: the step is
   * exactly the realtime save of the logged line.
   */
  lemma UnknownCommandLogged(s: MeetingState, nick: string, line: string, isop: bool, t: Time, now: Time,
                             cmd: string, arg: string)
    requires Inv(s)
    requires ParseCommand(line) == Some((cmd, arg)) && CommandOf(Lower(cmd)).None? && !VoteShaped(arg)
    ensures var r := LineStep(s, nick, line, isop, t, now);
      r == SaveStep(Logged(s, nick, line, isop, t), true)
      && r.state == Logged(s, nick, line, isop, t).(written := r.state.written)
  {
  }

  /**
   * An unknown `#word` whose argument is vote-shaped still casts that
   * argument once the realtime save has passed, since addline rebinds the
   * line to the argument.
   */
  lemma UnknownCommandCast(s: MeetingState, nick: string, line: string, isop: bool, t: Time, now: Time,
                           cmd: string, arg: string)
    requires Inv(s)
    requires ParseCommand(line) == Some((cmd, arg)) && CommandOf(Lower(cmd)).None? && VoteShaped(arg)
    requires SaveStep(Logged(s, nick, line, isop, t), true).raised.None?
    ensures var sv := SaveStep(Logged(s, nick, line, isop, t), true);
      var r := LineStep(s, nick, line, isop, t, now);
      r == Stepped(CastStep(sv.state, nick, arg, false), None)
      && (MayCast(s.voters, s.activeVote, nick) ==> HasKey(r.state.currentVote, nick) && Get(r.state.currentVote, nick) == arg)
  {
    UnknownCommandFinishes(s, nick, line, isop, t, now, cmd, arg);
    var sv := SaveStep(Logged(s, nick, line, isop, t), true);
    if MayCast(s.voters, s.activeVote, nick) {
      CastRecorded(sv.state, nick, arg, false);
    }
  }

  /** addline after an unknown `#word`: Finish on the logged state, with the argument as the line. */
  lemma UnknownCommandFinishes(s: MeetingState, nick: string, line: string, isop: bool, t: Time, now: Time,
                               cmd: string, arg: string)
    requires Inv(s)
    requires ParseCommand(line) == Some((cmd, arg)) && CommandOf(Lower(cmd)).None?
    ensures LineStep(s, nick, line, isop, t, now) == Finish(Stepped(Logged(s, nick, line, isop, t), None), nick, arg)
  {
  }

  /** A line starting with a URL protocol becomes a Link item numbered by its place in the log. */
  lemma UrlLineLinked(s: MeetingState, nick: string, line: string, isop: bool, t: Time, now: Time)
    requires Inv(s)
    requires ParseCommand(line).None? && IsUrlLine(line, s.config.urlProtocols)
    ensures var r := LineStep(s, nick, line, isop, t, now).state;
      r.minutes == s.minutes + [Item(LinkItem, nick, line, |s.lines| + 1, t)]
  {
  }

  /**
   * A vote-shaped chat line from an allowed voter while a vote is open is
   * recorded as the voter's cast, once the realtime save has passed.
   */
  lemma ChatVoteCast(s: MeetingState, nick: string, line: string, isop: bool, t: Time, now: Time)
    requires Inv(s)
    requires ParseCommand(line).None? && !IsUrlLine(line, s.config.urlProtocols) && VoteShaped(line)
    requires MayCast(s.voters, s.activeVote, nick)
    requires SaveStep(Logged(s, nick, line, isop, t), true).raised.None?
    ensures var r := LineStep(s, nick, line, isop, t, now).state;
      HasKey(r.currentVote, nick) && Get(r.currentVote, nick) == line
  {
    var sv := SaveStep(Logged(s, nick, line, isop, t), true);
    CastRecorded(sv.state, nick, line, false);
  }

  /**
   * #subtopic, #done, #accepted, #rejected: a chair's line becomes exactly
   * one new last item of the given kind; nothing else changes, and from
   * anyone else the command does nothing.
   */
  lemma ChairItemAppends(s: MeetingState, kind: ItemType, nick: string, line: string, linenum: nat, t: Time)
    requires Inv(s)
    ensures var r := ChairItemStep(s, kind, nick, line, linenum, t);
      (IsChairIn(s, nick) ==>
         r.minutes == s.minutes + [Item(kind, nick, line, linenum, t)]
         && r.outbox == s.outbox && r.topics == s.topics && r.ballot == s.ballot && r.status == s.status)
      && (!IsChairIn(s, nick) ==> r == s)
  {
  }

  /** #agreed: a chair's line becomes one new AGREED item, echoed exactly when the bot is noisy. */
  lemma AgreedAppends(s: MeetingState, nick: string, line: string, linenum: nat, t: Time)
    requires Inv(s)
    ensures var r := AgreedStep(s, nick, line, linenum, t);
      (IsChairIn(s, nick) ==>
         r.minutes == s.minutes + [Item(AgreedItem, nick, line, linenum, t)]
         && r.outbox == s.outbox + (if s.config.beNoisy then [Say(s, "AGREED: " + line)] else [])
         && r.topics == s.topics && r.ballot == s.ballot && r.status == s.status)
      && (!IsChairIn(s, nick) ==> r == s)
  {
  }

  /** #action, open to everyone: one new Action item, echoed exactly when the bot is noisy. */
  lemma ActionAppends(s: MeetingState, nick: string, line: string, linenum: nat, t: Time)
    requires Inv(s)
    ensures var r := ActionStep(s, nick, line, linenum, t);
      r.minutes == s.minutes + [Item(ActionItem, nick, line, linenum, t)]
      && r.outbox == s.outbox + (if s.config.beNoisy then [Say(s, "ACTION: " + line)] else [])
      && r.topics == s.topics && r.ballot == s.ballot && r.status == s.status
  {
  }

  /** #info, #idea, #help, #link, open to everyone: one new item of that kind and no reply. */
  lemma OpenItemAppends(s: MeetingState, kind: ItemType, nick: string, line: string, linenum: nat, t: Time)
    requires Inv(s)
    ensures var r := OpenItemStep(s, kind, nick, line, linenum, t);
      r.minutes == s.minutes + [Item(kind, nick, line, linenum, t)]
      && r.outbox == s.outbox && r.topics == s.topics && r.ballot == s.ballot && r.status == s.status
  {
  }

  /**
   * #meetingtopic: an empty line, "none" or "unset" (in any case) clears
   * the meeting topic, any other line becomes it; the current topic stays
   * and the channel topic is recomposed from the new pieces.
   */
  lemma MeetingTopicSets(s: MeetingState, nick: string, line: string)
    requires Inv(s) && IsChairIn(s, nick)
    ensures var r := MeetingTopicStep(s, nick, line);
      (line == "" || Lower(line) == "none" || Lower(line) == "unset" ==> r.meetingTopic.None?)
      && (!(line == "" || Lower(line) == "none" || Lower(line) == "unset") ==> r.meetingTopic == Some(line))
      && r.currenttopic == s.currenttopic && r.status == s.status && r.ballot == s.ballot
      && r.outbox == s.outbox + [TopicEvent(s.connected, s.lurk, TopicText(s.oldtopic, r.meetingTopic, s.currenttopic))]
  {
  }

  /**
   * #save: a chair's command records the end time, then runs the full
   * (not realtime) save; its writes and its exception are the save's, and
   * nothing else changes.
   */
  lemma DoSaveSets(s: MeetingState, nick: string, t: Time)
    requires Inv(s) && IsChairIn(s, nick)
    ensures var r := DoSaveStep(s, nick, t);
      var run := SaveSpec(s.config.files, TargetOf(s), false);
      r.state.endtime == Some(t)
      && r.state.written == s.written + WritesOf(run) && r.raised == RaisedBy(run)
      && r.state == s.(status := s.status.(endtime := Some(t)), written := r.state.written)
  {
    var s1 := s.(status := s.status.(endtime := Some(t)));
    assert TargetOf(s1) == TargetOf(s);
  }

  /** #lurk and #unlurk: the flag is set, so later replies are printed instead of sent while lurking. */
  lemma LurkSets(s: MeetingState, nick: string, on: bool, text: string)
    requires Inv(s) && IsChairIn(s, nick)
    ensures var r := LurkStep(s, nick, on);
      r.lurk == on && r.minutes == s.minutes && r.outbox == s.outbox && r.topics == s.topics
      && r.ballot == s.ballot && r.chairs == s.chairs
      && Say(r, text) == (if s.connected && !on then Reply(text) else Printed("REPLY: " + text))
  {
  }

  /**
   * #meetingname: the name becomes the lower-cased words of the line joined
   * by '_', which holds no whitespace, and the reply repeats it.
   */
  lemma MeetingNameSets(s: MeetingState, nick: string, line: string)
    requires Inv(s) && IsChairIn(s, nick)
    ensures var r := MeetingNameStep(s, nick, line);
      r.meetingname == Join("_", SplitWhitespace(Lower(line)))
      && (forall c | c in r.meetingname :: !IsSpace(c))
      && Lower(r.meetingname) == r.meetingname
      && r.outbox == s.outbox + [Say(s, "Meeting name set to: " + r.meetingname)]
      && r.minutes == s.minutes && r.currenttopic == s.currenttopic
  {
    MeetingNameNormal(line);
  }

  /** #votesrequired: int(line), or 0 where int() fails, becomes the margin and is replied. */
  lemma VotesRequiredSets(s: MeetingState, nick: string, line: string)
    requires Inv(s) && IsChairIn(s, nick)
    ensures var r := VotesRequiredStep(s, nick, line);
      r.votesrequired == (match ParseInt(line) case Some(v) => v case None => 0)
      && r.activeVote == s.activeVote && r.currentVote == s.currentVote && r.votes == s.votes
      && r.outbox == s.outbox + [Say(s, "Votes now need " + IntToString(r.votesrequired) + " to be passed")]
  {
  }

  /** #votesrequired with a number as '%d' prints it sets exactly that margin. */
  lemma VotesRequiredReadsNumber(s: MeetingState, nick: string, v: int)
    requires Inv(s) && IsChairIn(s, nick)
    ensures VotesRequiredStep(s, nick, IntToString(v)).votesrequired == v
  {
    ParseIntRoundTrip(v);
  }

  /** #private_commands (open to all): one private command list to the asker, or nothing while lurking. */
  lemma PrivateCommandsSends(s: MeetingState, nick: string)
    requires Inv(s)
    ensures var r := PrivateCommandsStep(s, nick);
      r.outbox == s.outbox + (if s.connected && !s.lurk then [PrivateReply(nick, PrivateCommandsMessage())] else [])
      && r == s.(outbox := r.outbox)
  {
  }

  /**
   * The replies after #startmeeting's greeting with the formatted message
   * `m`: its lines, the command lists to the owner and to every chair, and
   * the public command list.
   */
  function AfterGreeting(s: MeetingState, m: string): seq<Output> {
    s.outbox + ReplyLines(s.connected, s.lurk, Split(m, "\n"))
    + PrivateEvents(s.connected, s.lurk, PyStr(s.owner), PrivateCommandsMessage())
    + CommandLists(s.connected, s.lurk, s.chairs, PrivateCommandsMessage())
    + [Say(s, CommandsMessage)]
  }

  /** A start message that fails to format raises its error and sends nothing. */
  lemma GreetWithRaises(s: MeetingState, message: Result<string>)
    requires Inv(s) && message.Err?
    ensures GreetWith(s, message) == Stepped(s, Some(message.error))
  {
  }

  /** A formatted start message: nothing raises, and only the greeting is sent. */
  lemma GreetWithSends(s: MeetingState, m: string)
    requires Inv(s)
    ensures GreetWith(s, Ok(m)) == Stepped(s.(outbox := AfterGreeting(s, m)), None)
  {
  }

  /**
   * #startmeeting: the start time is recorded whatever follows.  When the
   * start message formats, nothing raises, the replies open with the
   * message lines, the command lists to the owner and to every chair, and
   * the public command list, and a non-empty argument from a chair
   * becomes the meeting topic.
   */
  lemma StartMeetingStarts(s: MeetingState, nick: string, line: string, t: Time)
    requires Inv(s)
    ensures var r := StartMeetingStep(s, nick, line, t);
      var s1 := s.(status := s.status.(starttime := Some(t)));
      var msg := Message(s1, s.config.startMeetingMessage);
      r.state.starttime == Some(t) && r.state.minutes == s.minutes
      && (msg.Err? ==> r == Stepped(s1, Some(msg.error)))
      && (msg.Ok? ==>
            r.raised.None?
            && AfterGreeting(s, msg.value) <= r.state.outbox
            && (line != "" && IsChairIn(s, nick) ==> r.state.meetingTopic == MeetingTopicValue(line))
            && (line == "" ==> r.state.meetingTopic == s.meetingTopic))
  {
    GreetedLaw(s, t);
    StartFromGreeting(s, nick, line, t);
  }

  /** The opening of #startmeeting: the start time, then the greeting or the formatting error. */
  lemma GreetedLaw(s: MeetingState, t: Time)
    requires Inv(s)
    ensures var s1 := s.(status := s.status.(starttime := Some(t)));
      var msg := Message(s1, s.config.startMeetingMessage);
      var g := Greeted(s, t);
      (msg.Err? ==> g == Stepped(s1, Some(msg.error)))
      && (msg.Ok? ==> g == Stepped(s1.(outbox := AfterGreeting(s, msg.value)), None))
  {
    var s1 := s.(status := s.status.(starttime := Some(t)));
    var msg := Message(s1, s.config.startMeetingMessage);
    if msg.Err? {
      GreetWithRaises(s1, msg);
    } else {
      GreetWithSends(s1, msg.value);
      assert AfterGreeting(s1, msg.value) == AfterGreeting(s, msg.value);
    }
  }

  /** After a greeting that raised nothing, #startmeeting only adds the meeting topic a chair gives. */
  lemma StartFromGreeting(s: MeetingState, nick: string, line: string, t: Time)
    requires Inv(s)
    ensures var g := Greeted(s, t);
      var r := StartMeetingStep(s, nick, line, t);
      (g.raised.Some? ==> r == g)
      && (g.raised.None? ==>
            r.raised.None? && g.state.outbox <= r.state.outbox
            && r.state.starttime == g.state.starttime && r.state.minutes == g.state.minutes
            && (line != "" && IsChairIn(s, nick) ==> r.state.meetingTopic == MeetingTopicValue(line))
            && (line == "" ==> r.state == g.state))
  {
    var g := Greeted(s, t);
    if g.raised.None? && line != "" {
      assert IsChairIn(g.state, nick) == IsChairIn(s, nick);
      var m := MeetingTopicStep(g.state, nick, line);
      assert g.state.outbox <= m.outbox;
    }
  }

  /**
   * The part of #endmeeting before the save closes an open vote (minuting
   * it at the clock reading) and records the end time.
   */
  lemma ClosingCloses(s: MeetingState, nick: string, linenum: nat, t: Time, now: Time)
    requires Inv(s) && IsChairIn(s, nick)
    ensures var r := Closing(s, nick, linenum, t, now);
      var s1 := if s.activeVote != "" then EndVoteStep(s, nick, linenum, now) else s;
      r.activeVote == "" && r.endtime == Some(t) && !r.meetingIsOver == !s.meetingIsOver
      && r.minutes == s1.minutes && TargetOf(r) == TargetOf(s) && r.written == s.written
      && r.outbox == s1.outbox + (if s.oldtopic.Some? && s.oldtopic.value != ""
                                  then [TopicEvent(s.connected, s.lurk, s.oldtopic.value)] else [])
  {
  }

  /**
   * The end announcement: an exception from the replacements or from the
   * end message leaves the state as it was; otherwise the message's lines
   * are replied, the meeting is over, and each nick on the notification
   * list is sent the notification, unless formatting that raises.
   */
  lemma AnnounceOver(s: MeetingState)
    requires Inv(s)
    ensures var r := Announced(s);
      (r.raised.None? ==> r.state.meetingIsOver)
      && r.state.activeVote == s.activeVote && r.state.endtime == s.endtime
      && r.state.written == s.written && TargetOf(r.state) == TargetOf(s)
      && (Replacements(s).Err? ==> r == Stepped(s, Some(Replacements(s).error)))
    ensures Replacements(s).Ok? ==> AnnouncedWith(s, Replacements(s).value, Announced(s))
  {
    match Replacements(s)
    case Err(e) =>
    case Ok(repl) =>
  }

  /** What the announcement does once the replacements are known. */
  ghost predicate AnnouncedWith(s: MeetingState, repl: map<string, string>, r: Stepped) {
    var msg := PercentFormat(s.config.endMeetingMessage, repl);
    var nicks := s.config.endMeetingNotificationList;
    (msg.Err? ==> r == Stepped(s, Some(msg.error)))
    && (msg.Ok? ==>
          var s4 := s.(outbox := s.outbox + ReplyLines(s.connected, s.lurk, Split(msg.value, "\n")),
                       status := s.status.(meetingIsOver := true));
          var note := PercentFormat(s.config.endMeetingNotification, repl);
          (nicks == [] ==> r == Stepped(s4, None))
          && (nicks != [] && note.Err? ==> r == Stepped(s4, Some(note.error)))
          && (nicks != [] && note.Ok? ==>
                r == Stepped(s4.(outbox := s4.outbox + Notifications(s.connected, s.lurk, nicks, note.value)), None)))
  }

  /**
   * #endmeeting from a chair: the vote is closed, the old topic restored and
   * the end time recorded whatever happens next; the full save then writes
   * its files, and an exception from it ends the step before the
   * announcement.  From anyone else it does nothing.
   */
  lemma EndMeetingOver(s: MeetingState, nick: string, line: string, linenum: nat, t: Time, now: Time)
    requires Inv(s)
    ensures var r := EndMeetingStep(s, nick, line, linenum, t, now);
      (IsChairIn(s, nick) ==>
         var s2 := Closing(s, nick, linenum, t, now);
         var run := SaveSpec(s.config.files, TargetOf(s), false);
         r.state.activeVote == "" && r.state.endtime == Some(t)
         && (r.raised.None? ==> r.state.meetingIsOver)
         && (s.activeVote != "" ==> EndVoteStep(s, nick, linenum, now).minutes == r.state.minutes)
         && r.state.written == s.written + WritesOf(run)
         && (RaisedBy(run).Some? ==> r == Stepped(s2.(written := r.state.written), RaisedBy(run)))
         && (RaisedBy(run).None? ==> r == Announced(s2.(written := r.state.written))))
      && (!IsChairIn(s, nick) ==> r == Stepped(s, None))
  {
    if IsChairIn(s, nick) {
      var s2 := Closing(s, nick, linenum, t, now);
      ClosingCloses(s, nick, linenum, t, now);
      var sv := SaveStep(s2, false);
      if sv.raised.None? {
        AnnounceOver(sv.state);
      }
    }
  }
}
