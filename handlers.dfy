// The do_* handlers of meeting.MeetingCommands and Meeting.addline as
// functions from one meeting state to the next.  The Meeting class runs
// the same steps imperatively and is proved to agree with them; the
// properties of the command language are lemmas about these functions.
module MeetingHandlers {
  import opened Wrappers
  import opened Strings
  import opened Clock
  import opened Dicts
  import opened Items
  import opened Grammar
  import opened Votes
  import opened WriterKinds
  import opened ConfigSave
  import opened MeetingSteps

  /** A state and the exception that ended the step, if any. */
  datatype Stepped = Stepped(state: MeetingState, raised: Option<Error>)

  /** What every handler keeps: the transcript, and every attendee's line count. */
  ghost predicate Keeps(s: MeetingState, r: MeetingState) {
    r.lines == s.lines && r.config == s.config && r.owner == s.owner
    && r.connected == s.connected && r.channelNicks == s.channelNicks
    && forall k :: Count(r.attendees, k) == Count(s.attendees, k)
  }

  function AddItem(s: MeetingState, it: Item): MeetingState {
    s.(log := s.log.(minutes := s.minutes + [it]))
  }

  function SayStep(s: MeetingState, text: string): MeetingState {
    s.(outbox := s.outbox + [Say(s, text)])
  }

  /** do_topic. */
  function TopicStep(s: MeetingState, nick: string, line: string, linenum: nat, t: Time): (r: MeetingState)
    requires Inv(s)
    ensures Inv(r) && Keeps(s, r)
    ensures s.minutes <= r.minutes
  {
    if !IsChairIn(s, nick) then s
    else
      var s1 := AddItem(s.(topics := s.topics.(currenttopic := line)), Item(TopicItem, nick, line, linenum, t));
      s1.(outbox := s1.outbox + [TopicEvent(s.connected, s.lurk, TopicText(s.oldtopic, s.meetingTopic, line))])
  }

  /** do_subtopic, do_done, do_accepted, do_rejected: a chair's item. */
  function ChairItemStep(s: MeetingState, kind: ItemType, nick: string, line: string, linenum: nat, t: Time): (r: MeetingState)
    requires Inv(s)
    ensures Inv(r) && Keeps(s, r)
    ensures s.minutes <= r.minutes
  {
    if !IsChairIn(s, nick) then s else AddItem(s, Item(kind, nick, line, linenum, t))
  }

  /** do_agreed: a chair's item, echoed when the bot is noisy. */
  function AgreedStep(s: MeetingState, nick: string, line: string, linenum: nat, t: Time): (r: MeetingState)
    requires Inv(s)
    ensures Inv(r) && Keeps(s, r)
    ensures s.minutes <= r.minutes
  {
    if !IsChairIn(s, nick) then s
    else
      var s1 := AddItem(s, Item(AgreedItem, nick, line, linenum, t));
      if s.config.beNoisy then SayStep(s1, "AGREED: " + line) else s1
  }

  /** do_action: anyone's item, echoed when the bot is noisy. */
  function ActionStep(s: MeetingState, nick: string, line: string, linenum: nat, t: Time): (r: MeetingState)
    requires Inv(s)
    ensures Inv(r) && Keeps(s, r)
    ensures s.minutes <= r.minutes
  {
    var s1 := AddItem(s, Item(ActionItem, nick, line, linenum, t));
    if s.config.beNoisy then SayStep(s1, "ACTION: " + line) else s1
  }

  /** do_info, do_idea, do_help, do_link: anyone's item. */
  function OpenItemStep(s: MeetingState, kind: ItemType, nick: string, line: string, linenum: nat, t: Time): (r: MeetingState)
    requires Inv(s)
    ensures Inv(r) && Keeps(s, r)
    ensures s.minutes <= r.minutes
  {
    AddItem(s, Item(kind, nick, line, linenum, t))
  }

  /** do_meetingtopic: set or clear the meeting topic, then settopic. */
  function MeetingTopicStep(s: MeetingState, nick: string, line: string): (r: MeetingState)
    requires Inv(s)
    ensures Inv(r) && Keeps(s, r) && r.minutes == s.minutes
  {
    if !IsChairIn(s, nick) then s
    else
      var mt := MeetingTopicValue(line);
      s.(topics := s.topics.(meetingTopic := mt),
         outbox := s.outbox + [TopicEvent(s.connected, s.lurk, TopicText(s.oldtopic, mt, s.currenttopic))])
  }

  /** Config.save as the meeting sees it: the writes are recorded, an exception surfaces. */
  function SaveStep(s: MeetingState, realtime: bool): (r: Stepped)
    requires Inv(s)
    ensures Inv(r.state) && Keeps(s, r.state) && r.state.minutes == s.minutes
    ensures r.state == s.(written := r.state.written)
  {
    var run := SaveSpec(s.config.files, TargetOf(s), realtime);
    Stepped(s.(written := s.written + WritesOf(run)), RaisedBy(run))
  }

  /** do_save. */
  function DoSaveStep(s: MeetingState, nick: string, t: Time): (r: Stepped)
    requires Inv(s)
    ensures Inv(r.state) && Keeps(s, r.state) && r.state.minutes == s.minutes
  {
    if !IsChairIn(s, nick) then Stepped(s, None) else SaveStep(s.(status := s.status.(endtime := Some(t))), false)
  }

  /** The closing "Current chairs/voters" reply, which raises when there is no owner. */
  function RosterStep(s: MeetingState, title: string, names: seq<string>): (r: Stepped)
    requires Inv(s)
    ensures Inv(r.state) && Keeps(s, r.state) && r.state.minutes == s.minutes
    ensures r.raised.Some? <==> s.owner.None?
  {
    match Roster(title, names, s.owner)
    case Err(e) => Stepped(s, Some(e))
    case Ok(m) => Stepped(SayStep(s, m), None)
  }

  /** do_chair. */
  function ChairStep(s: MeetingState, nick: string, line: string): (r: Stepped)
    requires Inv(s)
    ensures Inv(r.state) && Keeps(s, r.state) && r.state.minutes == s.minutes
  {
    if !IsChairIn(s, nick) then Stepped(s, None)
    else
      var s1 := ChairsAdded(s, NameTokens(line));
      RosterStep(s1, "Current chairs: ", s1.chairs)
  }

  /** do_chair's loop over the names: each new one registered, made chair and sent the command list. */
  function ChairsAdded(s: MeetingState, tokens: seq<string>): (r: MeetingState)
    requires Inv(s)
    ensures Inv(r) && Keeps(s, r) && r.minutes == s.minutes
  {
    AddNamesSpec(s.chairs, tokens);
    forall k ensures Count(TouchNew(s.attendees, s.chairs, tokens), k) == Count(s.attendees, k) {
      TouchNewCounts(s.attendees, s.chairs, tokens, k);
    }
    s.(chairs := AddNames(s.chairs, tokens),
       log := s.log.(attendees := TouchNew(s.attendees, s.chairs, tokens)),
       outbox := s.outbox + NameEvents(s.chairs, tokens, s.channelNicks, s.connected, s.lurk, Some(PrivateCommandsMessage())))
  }


  /** do_unchair. */
  function UnchairStep(s: MeetingState, nick: string, line: string): (r: Stepped)
    requires Inv(s)
    ensures Inv(r.state) && Keeps(s, r.state) && r.state.minutes == s.minutes
  {
    if !IsChairIn(s, nick) then Stepped(s, None)
    else
      RemoveNamesSpec(s.chairs, NameTokens(line));
      var s1 := s.(chairs := RemoveNames(s.chairs, NameTokens(line)));
      RosterStep(s1, "Current chairs: ", s1.chairs)
  }

  /** do_undo. */
  function UndoStep(s: MeetingState, nick: string): (r: MeetingState)
    requires Inv(s)
    ensures Inv(r) && Keeps(s, r)
    ensures r.minutes <= s.minutes
  {
    if !IsChairIn(s, nick) || s.minutes == [] then s
    else
      var last := s.minutes[|s.minutes| - 1];
      var s1 := SayStep(s, "Removing item from minutes: " + ItemTypeName(last.itemtype));
      s1.(log := s1.log.(minutes := s.minutes[..|s.minutes| - 1]))
  }

  /**
   * do_restrictlogs as written: the flag is set, then the reply names the
   * bare `RestrictPerm`, which only exists as an attribute of Config.
   */
  function RestrictLogsAsWritten(s: MeetingState, nick: string): (r: Stepped)
    requires Inv(s)
    ensures Inv(r.state) && Keeps(s, r.state) && r.state.minutes == s.minutes
  {
    if !IsChairIn(s, nick) then Stepped(s, None)
    else Stepped(s.(status := s.status.(restrictlogs := true)), Some(NameError("RestrictPerm")))
  }

  /** oct(Config.RestrictPerm), with RestrictPerm = stat.S_IRWXO | stat.S_IRWXG. */
  const RestrictPermOctal: string := "0o77"

  /** do_restrictlogs reading the permission mask from the configuration, as intended. */
  function RestrictLogsStep(s: MeetingState, nick: string): (r: MeetingState)
    requires Inv(s)
    ensures Inv(r) && Keeps(s, r) && r.minutes == s.minutes
  {
    if !IsChairIn(s, nick) then s
    else
      SayStep(s.(status := s.status.(restrictlogs := true)),
              "Restricting permissions on minutes: -" + RestrictPermOctal + " on next #save")
  }

  /** do_lurk and do_unlurk. */
  function LurkStep(s: MeetingState, nick: string, on: bool): (r: MeetingState)
    requires Inv(s)
    ensures Inv(r) && Keeps(s, r) && r.minutes == s.minutes
  {
    if !IsChairIn(s, nick) then s else s.(status := s.status.(lurk := on))
  }

  /** do_meetingname. */
  function MeetingNameStep(s: MeetingState, nick: string, line: string): (r: MeetingState)
    requires Inv(s)
    ensures Inv(r) && Keeps(s, r) && r.minutes == s.minutes
  {
    if !IsChairIn(s, nick) then s
    else
      var name := MeetingName(line);
      SayStep(s.(topics := s.topics.(meetingname := name)), "Meeting name set to: " + name)
  }

  /** do_vote. */
  function VoteStep(s: MeetingState, nick: string, line: string): (r: MeetingState)
    requires Inv(s)
    ensures Inv(r) && Keeps(s, r) && r.minutes == s.minutes
  {
    if !IsChairIn(s, nick) then s
    else if s.activeVote != "" then SayStep(s, "Voting still open on: " + s.activeVote)
    else
      var s1 := s.(ballot := s.ballot.(activeVote := line, currentVote := [],
                                       publicVoters := Put(s.publicVoters, line, []),
                                       currentVoteStartLine := |s.lines|));
      SayStep(SayStep(s1, "Please vote on: " + line), PublicVoteHelp)
  }

  const PublicVoteHelp: string :=
    "Public votes can be registered by saying +1, -1 or +0 in channel "
    + "(for private voting, private message me with 'vote +1|-1|+0 #channelname')"

  /** do_votesrequired: int(line), or 0 where int() raises ValueError. */
  function VotesRequiredStep(s: MeetingState, nick: string, line: string): (r: MeetingState)
    requires Inv(s)
    ensures Inv(r) && Keeps(s, r) && r.minutes == s.minutes
  {
    if !IsChairIn(s, nick) then s
    else
      var n := match ParseInt(line) case Some(v) => v case None => 0;
      SayStep(s.(ballot := s.ballot.(votesrequired := n)), "Votes now need " + IntToString(n) + " to be passed")
  }

  /** The three replies of a closing vote. */
  function EndVoteReplies(s: MeetingState, c: Counts): seq<Output> {
    [Say(s, "Voting ended on: " + s.activeVote),
     Say(s, "Votes for: " + NatToString(c.vfor) + ", Votes against: " + NatToString(c.against)
            + ", Abstentions: " + NatToString(c.abstain)),
     Say(s, if Outcome(c, s.votesrequired) == "Carried" then "Motion carried" else "Motion denied")]
  }

  /** do_endvote. */
  function EndVoteStep(s: MeetingState, nick: string, linenum: nat, t: Time): (r: MeetingState)
    requires Inv(s)
    ensures Inv(r) && Keeps(s, r)
    ensures s.minutes <= r.minutes
  {
    if !IsChairIn(s, nick) then s
    else if s.activeVote == "" then SayStep(s, "No vote in progress")
    else ClosedVote(s, nick, linenum, t)
  }

  /** do_endvote once a vote is open: the casts counted, the result replied, stored and minuted. */
  function ClosedVote(s: MeetingState, nick: string, linenum: nat, t: Time): (r: MeetingState)
    requires Inv(s)
    ensures Inv(r) && Keeps(s, r)
    ensures s.minutes <= r.minutes
  {
    var c := Tally(Values(s.currentVote));
    var result := Outcome(c, s.votesrequired);
    s.(outbox := s.outbox + EndVoteReplies(s, c),
       ballot := s.ballot.(votes := Put(s.votes, s.activeVote, (Summary(c, s.votesrequired), s.currentVoteStartLine)),
                           activeVote := "", currentVote := [], currentVoteStartLine := 0),
       log := s.log.(minutes := s.minutes + [Item(VoteItem, nick, s.activeVote + " (" + result + ")", linenum, t)]))
  }

  /** do_voters: the tokens up to the first "everyone"/"everybody"/"all", which empties the list. */
  function VotersStep(s: MeetingState, nick: string, line: string): (r: Stepped)
    requires Inv(s)
    ensures Inv(r.state) && Keeps(s, r.state) && r.state.minutes == s.minutes
  {
    if !IsChairIn(s, nick) then Stepped(s, None)
    else
      var tokens := NameTokens(line);
      var k := FirstEveryone(tokens);
      var s1 := VotersAdded(s, tokens[..k]);
      if k < |tokens| then Stepped(SayStep(s1.(voters := []), "Everyone can now vote"), None)
      else RosterStep(s1, "Current voters: ", s1.voters)
  }

  /** do_voters' loop over the names before the first resetting one: each new one registered and made voter. */
  function VotersAdded(s: MeetingState, names: seq<string>): (r: MeetingState)
    requires Inv(s)
    ensures Inv(r) && Keeps(s, r) && r.minutes == s.minutes
  {
    AddNamesSpec(s.voters, names);
    forall x ensures Count(TouchNew(s.attendees, s.voters, names), x) == Count(s.attendees, x) {
      TouchNewCounts(s.attendees, s.voters, names, x);
    }
    s.(voters := AddNames(s.voters, names),
       log := s.log.(attendees := TouchNew(s.attendees, s.voters, names)),
       outbox := s.outbox + NameEvents(s.voters, names, s.channelNicks, s.connected, s.lurk, None))
  }


  /** do_private_commands. */
  function PrivateCommandsStep(s: MeetingState, nick: string): (r: MeetingState)
    requires Inv(s)
    ensures Inv(r) && Keeps(s, r) && r.minutes == s.minutes
  {
    s.(outbox := s.outbox + PrivateEvents(s.connected, s.lurk, nick, PrivateCommandsMessage()))
  }

  /** do_nick. */
  function NickStep(s: MeetingState, line: string): (r: MeetingState)
    requires Inv(s)
    ensures Inv(r) && Keeps(s, r) && r.minutes == s.minutes
  {
    forall x ensures Count(TouchAll(s.attendees, NameTokens(line)), x) == Count(s.attendees, x) {
      TouchAllSpec(s.attendees, NameTokens(line), x);
    }
    s.(log := s.log.(attendees := TouchAll(s.attendees, NameTokens(line))))
  }

  /**
   * The opening of do_startmeeting: the start time, the start message, the
   * command lists for the owner and the chairs, the command list.
   */
  function Greeted(s: MeetingState, t: Time): (r: Stepped)
    requires Inv(s)
    ensures Inv(r.state) && Keeps(s, r.state) && r.state.minutes == s.minutes
  {
    var s1 := s.(status := s.status.(starttime := Some(t)));
    GreetWith(s1, Message(s1, s.config.startMeetingMessage))
  }

  /** The replies of do_startmeeting once its message is formatted, or the formatting error. */
  function GreetWith(s: MeetingState, message: Result<string>): (r: Stepped)
    requires Inv(s)
    ensures Inv(r.state) && Keeps(s, r.state) && r.state.minutes == s.minutes
  {
    match message
    case Err(e) => Stepped(s, Some(e))
    case Ok(m) =>
      Stepped(s.(outbox := s.outbox + ReplyLines(s.connected, s.lurk, Split(m, "\n"))
                 + PrivateEvents(s.connected, s.lurk, PyStr(s.owner), PrivateCommandsMessage())
                 + CommandLists(s.connected, s.lurk, s.chairs, PrivateCommandsMessage())
                 + [Say(s, CommandsMessage)]), None)
  }

  /** do_startmeeting: anyone may start; the opening argument goes to do_meetingtopic. */
  function StartMeetingStep(s: MeetingState, nick: string, line: string, t: Time): (r: Stepped)
    requires Inv(s)
    ensures Inv(r.state) && Keeps(s, r.state) && r.state.minutes == s.minutes
  {
    var g := Greeted(s, t);
    if g.raised.Some? || line == "" then g
    else Stepped(MeetingTopicStep(g.state, nick, line), None)
  }

  /** One private reply per nick of the notification list. */
  function Notifications(connected: bool, lurk: bool, nicks: seq<string>, text: string): seq<Output>
    decreases |nicks|
  {
    if nicks == [] then []
    else Notifications(connected, lurk, nicks[..|nicks| - 1], text)
         + PrivateEvents(connected, lurk, nicks[|nicks| - 1], text)
  }

  /**
   * do_endmeeting: close an open vote, restore the old topic, save
   * everything, then announce the end.  An exception in save ends the step.
   */
  function EndMeetingStep(s: MeetingState, nick: string, line: string, linenum: nat, t: Time, now: Time): (r: Stepped)
    requires Inv(s)
    ensures Inv(r.state) && Keeps(s, r.state)
    ensures s.minutes <= r.state.minutes
  {
    if !IsChairIn(s, nick) then Stepped(s, None)
    else
      var s2 := Closing(s, nick, linenum, t, now);
      var sv := SaveStep(s2, false);
      if sv.raised.Some? then sv else Announced(sv.state)
  }

  /** The steps of do_endmeeting before the save; a vote still open is ended at the clock reading. */
  function Closing(s: MeetingState, nick: string, linenum: nat, t: Time, now: Time): (r: MeetingState)
    requires Inv(s)
    ensures Inv(r) && Keeps(s, r)
    ensures s.minutes <= r.minutes
  {
    var s1 := if s.activeVote != "" then EndVoteStep(s, nick, linenum, now) else s;
    var s2 := if s1.oldtopic.Some? && s1.oldtopic.value != ""
              then s1.(outbox := s1.outbox + [TopicEvent(s1.connected, s1.lurk, s1.oldtopic.value)])
              else s1;
    s2.(status := s2.status.(endtime := Some(t)))
  }

  /**
   * The end message, the meeting marked over, then the notifications; an
   * exception in formatting a message ends the step where it happens.
   */
  function Announced(s: MeetingState): (r: Stepped)
    requires Inv(s)
    ensures Inv(r.state) && Keeps(s, r.state) && r.state.minutes == s.minutes
  {
    AnnounceWith(s, Replacements(s))
  }

  /** The end of do_endmeeting once the replacements are computed, or the error computing them. */
  function AnnounceWith(s: MeetingState, replacements: Result<map<string, string>>): (r: Stepped)
    requires Inv(s)
    ensures Inv(r.state) && Keeps(s, r.state) && r.state.minutes == s.minutes
  {
    match replacements
    case Err(e) => Stepped(s, Some(e))
    case Ok(repl) =>
      match PercentFormat(s.config.endMeetingMessage, repl)
      case Err(e) => Stepped(s, Some(e))
      case Ok(m) =>
        var s4 := s.(outbox := s.outbox + ReplyLines(s.connected, s.lurk, Split(m, "\n")),
                     status := s.status.(meetingIsOver := true));
        var nicks := s.config.endMeetingNotificationList;
        if nicks == [] then Stepped(s4, None)
        else
          match PercentFormat(s.config.endMeetingNotification, repl)
          case Err(e) => Stepped(s4, Some(e))
          case Ok(n) => Stepped(s4.(outbox := s4.outbox + Notifications(s.connected, s.lurk, nicks, n)), None)
  }

  /** The call `do_<command>(nick=..., line=..., linenum=..., time_=...)`. */
  function HandlerStep(h: Handler, s: MeetingState, nick: string, arg: string, linenum: nat, t: Time, now: Time): (r: Stepped)
    requires Inv(s)
    ensures Inv(r.state) && Keeps(s, r.state)
  {
    if ItemHandler(h) then Stepped(ItemStep(h, s, nick, arg, linenum, t), None)
    else if PeopleHandler(h) then PeopleStep(h, s, nick, arg, linenum, t)
    else if SessionHandler(h) then SessionStep(h, s, nick, arg, linenum, t, now)
    else Stepped(SettingStep(h, s, nick, arg), None)
  }

  /** The commands that add to, or take from, the minutes. */
  predicate ItemHandler(h: Handler) {
    h.TopicCmd? || h.SubtopicCmd? || h.DoneCmd? || h.AgreedCmd? || h.AcceptedCmd? || h.RejectedCmd?
    || h.UndoCmd? || h.ActionCmd? || h.InfoCmd? || h.IdeaCmd? || h.HelpCmd? || h.LinkCmd?
  }

  /** The commands about chairs, voters, votes and nicks. */
  predicate PeopleHandler(h: Handler) {
    h.ChairCmd? || h.UnchairCmd? || h.VoteCmd? || h.VotesRequiredCmd? || h.EndVoteCmd? || h.VotersCmd? || h.NickCmd?
  }

  /** The minutes commands; none of them raises. */
  function ItemStep(h: Handler, s: MeetingState, nick: string, arg: string, linenum: nat, t: Time): (r: MeetingState)
    requires Inv(s) && ItemHandler(h)
    ensures Inv(r) && Keeps(s, r)
  {
    if h.TopicCmd? then TopicStep(s, nick, arg, linenum, t)
    else if h.AgreedCmd? then AgreedStep(s, nick, arg, linenum, t)
    else if h.UndoCmd? then UndoStep(s, nick)
    else if h.ActionCmd? then ActionStep(s, nick, arg, linenum, t)
    else if h.SubtopicCmd? then ChairItemStep(s, SubtopicItem, nick, arg, linenum, t)
    else if h.DoneCmd? then ChairItemStep(s, DoneItem, nick, arg, linenum, t)
    else if h.AcceptedCmd? then ChairItemStep(s, AcceptedItem, nick, arg, linenum, t)
    else if h.RejectedCmd? then ChairItemStep(s, RejectedItem, nick, arg, linenum, t)
    else if h.InfoCmd? then OpenItemStep(s, InfoItem, nick, arg, linenum, t)
    else if h.IdeaCmd? then OpenItemStep(s, IdeaItem, nick, arg, linenum, t)
    else if h.HelpCmd? then OpenItemStep(s, HelpItem, nick, arg, linenum, t)
    else OpenItemStep(s, LinkItem, nick, arg, linenum, t)
  }

  /** The chair, voter, vote and nick commands. */
  function PeopleStep(h: Handler, s: MeetingState, nick: string, arg: string, linenum: nat, t: Time): (r: Stepped)
    requires Inv(s) && PeopleHandler(h)
    ensures Inv(r.state) && Keeps(s, r.state)
  {
    if h.ChairCmd? then ChairStep(s, nick, arg)
    else if h.UnchairCmd? then UnchairStep(s, nick, arg)
    else if h.VotersCmd? then VotersStep(s, nick, arg)
    else if h.VoteCmd? then Stepped(VoteStep(s, nick, arg), None)
    else if h.VotesRequiredCmd? then Stepped(VotesRequiredStep(s, nick, arg), None)
    else if h.EndVoteCmd? then Stepped(EndVoteStep(s, nick, linenum, t), None)
    else Stepped(NickStep(s, arg), None)
  }

  /** The commands that start, end or save the meeting, and #replay. */
  predicate SessionHandler(h: Handler) {
    h.ReplayCmd? || h.StartMeetingCmd? || h.EndMeetingCmd? || h.SaveCmd?
  }

  /** The commands that start, end or save the meeting, and #replay. */
  function SessionStep(h: Handler, s: MeetingState, nick: string, arg: string, linenum: nat, t: Time, now: Time): (r: Stepped)
    requires Inv(s) && SessionHandler(h)
    ensures Inv(r.state) && Keeps(s, r.state)
  {
    if h.ReplayCmd? then Stepped(SayStep(s, "Looking for meetings in: " + arg), None)
    else if h.StartMeetingCmd? then StartMeetingStep(s, nick, arg, t)
    else if h.EndMeetingCmd? then EndMeetingStep(s, nick, arg, linenum, t, now)
    else DoSaveStep(s, nick, t)
  }

  /** The remaining commands: the meeting's name and topic, the log and lurk flags, and help; none raises. */
  function SettingStep(h: Handler, s: MeetingState, nick: string, arg: string): (r: MeetingState)
    requires Inv(s) && !ItemHandler(h) && !PeopleHandler(h) && !SessionHandler(h)
    ensures Inv(r) && Keeps(s, r)
  {
    if h.MeetingTopicCmd? then MeetingTopicStep(s, nick, arg)
    else if h.RestrictLogsCmd? then RestrictLogsStep(s, nick)
    else if h.LurkCmd? then LurkStep(s, nick, true)
    else if h.UnlurkCmd? then LurkStep(s, nick, false)
    else if h.MeetingNameCmd? then MeetingNameStep(s, nick, arg)
    else if h.PrivateCommandsCmd? then PrivateCommandsStep(s, nick)
    else SayStep(s, CommandsMessage)
  }


  /**
   * What addline does after a handler (or none) has run: the realtime save,
   * then a cast when the text left in `line` looks like a vote.  An
   * exception skips the rest.
   */
  function Finish(st: Stepped, nick: string, text: string): (r: Stepped)
    requires Inv(st.state)
    ensures Inv(r.state) && Keeps(st.state, r.state) && r.state.minutes == st.state.minutes
  {
    if st.raised.Some? then st
    else
      var sv := SaveStep(st.state, true);
      if sv.raised.Some? || !VoteShaped(text) then sv
      else Stepped(CastStep(sv.state, nick, text, false), None)
  }

  /** The logged state addline dispatches on: the raw line appended, the op flag recorded. */
  function Logged(s: MeetingState, nick: string, line: string, isop: bool, t: Time): (r: MeetingState)
    requires Inv(s)
    ensures Inv(r)
  {
    var s1 := RawLineStep(s, nick, line, t);
    s1.(status := s1.status.(isop := isop))
  }

  /** Meeting.addline(nick, line, isop, time_), with `now` the clock reading. */
  function LineStep(s: MeetingState, nick: string, line: string, isop: bool, t: Time, now: Time): (r: Stepped)
    requires Inv(s)
    ensures Inv(r.state)
  {
    Dispatch(Logged(s, nick, line, isop, t), nick, line, t, now)
  }

  /**
   * What addline does with a line once it is logged: the command's handler,
   * or the automatic link, then Finish.  The line number is the length of
   * the transcript.
   */
  function Dispatch(s1: MeetingState, nick: string, line: string, t: Time, now: Time): (r: Stepped)
    requires Inv(s1)
    ensures Inv(r.state) && Keeps(s1, r.state)
  {
    var linenum := |s1.lines|;
    match ParseCommand(line)
    case Some((cmd, arg)) =>
      (match CommandOf(Lower(cmd))
       case None => Finish(Stepped(s1, None), nick, arg)
       case Some(h) => Finish(HandlerStep(h, s1, nick, arg, linenum, t, now), nick, arg))
    case None =>
      if IsUrlLine(line, s1.config.urlProtocols)
      then Finish(Stepped(OpenItemStep(s1, LinkItem, nick, line, linenum, t), None), nick, line)
      else Finish(Stepped(s1, None), nick, line)
  }
}
