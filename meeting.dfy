// meeting.Meeting: the object the bot keeps per channel.  Its fields are
// the attributes the source sets in __init__ and its commands update; each
// method changes them in place as the source does, and is proved to end in
// the state the matching step function of MeetingHandlers computes, so the
// laws proved about those functions hold of the object.
module MeetingObject {
  import opened Wrappers
  import opened Strings
  import opened Clock
  import opened Dicts
  import opened Items
  import opened Grammar
  import opened Votes
  import opened ConfigSave
  import opened MeetingSteps
  import opened MeetingHandlers
  import opened NameLoops

  /**
   * Meeting, with its attributes grouped by concern: each field below holds
   * the attributes of one group, and a method that changes an attribute
   * replaces it inside its group.
   */
  class Meeting {
    var setup: Setup
    var topics: Topics
    var log: Transcript
    var chairs: seq<string>
    var voters: seq<string>
    var ballot: Ballot
    var status: Status
    /** What the bot has sent, set or printed so far. */
    var outbox: seq<Output>
    /** The files Config.save has written so far. */
    var written: seq<FileWrite>

    /** The object's attributes as a value. */
    function Snap(): MeetingState
      reads this
    {
      MeetingState(setup, topics, log, chairs, voters, ballot, status, outbox, written)
    }

    predicate Valid()
      reads this
    {
      Inv(Snap())
    }

    /** Meeting.__init__; `connected` says whether the reply, private-reply and topic callbacks were given. */
    constructor (cfg: MeetingConfig, channel: string, owner: Option<string>, oldtopic: string,
                 filename: string, writeRawLog: bool, connected: bool,
                 channelNicks: Option<set<string>>, network: string)
      ensures Snap() == Fresh(cfg, channel, owner, oldtopic, filename, writeRawLog, connected, channelNicks, network)
      ensures Valid()
    {
      setup := Setup(cfg.(files := cfg.files.(writers := BuildWriters(writeRawLog, cfg.writerMap))),
                     owner, channel, network, filename, channelNicks, connected);
      topics := Topics("", if oldtopic != "" then Some(oldtopic) else None, None, "");
      log := Transcript([], [], []);
      chairs := [];
      voters := [];
      ballot := Ballot([], [], 0, "", [], 0);
      status := Status(false, false, false, false, None, None);
      outbox := [];
      written := [];
    }

    /** process_meeting's `M.owner = nick; M.chairs = {nick: True}`. */
    method TakeOwner(nick: string)
      requires Valid()
      modifies this`setup, this`chairs
      ensures Snap() == Owned(old(Snap()), nick)
      ensures Valid()
    {
      setup := setup.(owner := Some(nick));
      chairs := [nick];
    }

    /** reply. */
    method Reply(x: string)
      modifies this`outbox
      ensures outbox == old(outbox) + [ReplyEvent(setup.connected, status.lurk, x)]
    {
      outbox := outbox + [ReplyEvent(setup.connected, status.lurk, x)];
    }

    /** One reply per line, in order. */
    method ReplyAll(texts: seq<string>)
      modifies this`outbox
      ensures outbox == old(outbox) + ReplyLines(setup.connected, status.lurk, texts)
    {
      var evs := Replies(texts);
      outbox := outbox + evs;
    }

    /** The replies for `texts`, one per line, in order; nothing is sent yet. */
    method Replies(texts: seq<string>) returns (evs: seq<Output>)
      ensures evs == ReplyLines(setup.connected, status.lurk, texts)
    {
      evs := [];
      var i := 0;
      while i < |texts|
        invariant 0 <= i <= |texts|
        invariant evs == ReplyLines(setup.connected, status.lurk, texts[..i])
      {
        assert texts[..i + 1][..i] == texts[..i];
        evs := evs + [ReplyEvent(setup.connected, status.lurk, texts[i])];
        i := i + 1;
      }
      assert texts[..|texts|] == texts;
    }

    /** privateReply: sent only when the callback is there and the bot does not lurk. */
    method PrivateReply(nick: string, x: string)
      modifies this`outbox
      ensures outbox == old(outbox) + PrivateEvents(setup.connected, status.lurk, nick, x)
    {
      if setup.connected && !status.lurk {
        outbox := outbox + [MeetingSteps.PrivateReply(nick, x)];
      }
    }

    /** topic. */
    method Topic(x: string)
      modifies this`outbox
      ensures outbox == old(outbox) + [TopicEvent(setup.connected, status.lurk, x)]
    {
      outbox := outbox + [TopicEvent(setup.connected, status.lurk, x)];
    }

    /** settopic. */
    method SetTopicNow()
      modifies this`outbox
      ensures outbox == old(outbox)
        + [TopicEvent(setup.connected, status.lurk, TopicText(topics.oldtopic, topics.meetingTopic, topics.currenttopic))]
    {
      Topic(TopicText(topics.oldtopic, topics.meetingTopic, topics.currenttopic));
    }

    /** addnick: the nick's line count grows by `n`, a new nick starting from zero. */
    method AddNick(nick: string, n: nat)
      requires UniqueKeys(log.attendees)
      modifies this`log
      ensures log == old(log).(attendees := Put(old(log.attendees), nick, Count(old(log.attendees), nick) + n))
    {
      log := log.(attendees := Put(log.attendees, nick, Count(log.attendees, nick) + n));
    }

    /** additem. */
    method AddItem(m: Item)
      modifies this`log
      ensures log == old(log).(minutes := old(log.minutes) + [m])
    {
      log := log.(minutes := log.minutes + [m]);
    }

    /** addrawline: the line is logged and counted; the result is its 1-based number. */
    method AddRawLine(nick: string, line: string, t: Time) returns (linenum: nat)
      requires Valid()
      modifies this`log
      ensures Snap() == RawLineStep(old(Snap()), nick, line, t)
      ensures Valid()
      ensures linenum == |log.lines|
    {
      AddNick(nick, 1);
      log := log.(lines := log.lines + [LogLine(nick, line, t)]);
      linenum := |log.lines|;
    }

    /** doCastVote. */
    method DoCastVote(nick: string, line: string, private: bool)
      requires Valid()
      modifies this`ballot, this`outbox
      ensures Snap() == CastStep(old(Snap()), nick, line, private)
      ensures Valid()
    {
      if voters == [] || nick in voters {
        if ballot.activeVote != "" {
          ballot := ballot.(currentVote := Put(ballot.currentVote, nick, line));
          if !private {
            ballot := ballot.(publicVoters := Put(ballot.publicVoters, ballot.activeVote,
                                                  Get(ballot.publicVoters, ballot.activeVote) + [nick]));
            Reply(line + " received from " + nick);
          }
        }
      }
    }

    /** save, that is Config.save(realtime_update): the writes are recorded, an exception is returned. */
    method Save(realtime: bool) returns (raised: Option<Error>)
      requires Valid()
      modifies this`written
      ensures Stepped(Snap(), raised) == SaveStep(old(Snap()), realtime)
      ensures Valid()
    {
      var run := ConfigSave.Save(setup.config.files, TargetOf(Snap()), realtime);
      written := written + WritesOf(run);
      raised := RaisedBy(run);
    }

    /** do_topic. */
    method DoTopic(nick: string, line: string, linenum: nat, t: Time)
      requires Valid()
      modifies this`topics, this`log, this`outbox
      ensures Snap() == TopicStep(old(Snap()), nick, line, linenum, t)
      ensures Valid()
    {
      if !IsChairIn(Snap(), nick) { return; }
      topics := topics.(currenttopic := line);
      AddItem(Item(TopicItem, nick, line, linenum, t));
      SetTopicNow();
    }

    /** do_subtopic, do_done, do_accepted, do_rejected. */
    method DoChairItem(kind: ItemType, nick: string, line: string, linenum: nat, t: Time)
      requires Valid()
      modifies this`log
      ensures Snap() == ChairItemStep(old(Snap()), kind, nick, line, linenum, t)
      ensures Valid()
    {
      if !IsChairIn(Snap(), nick) { return; }
      AddItem(Item(kind, nick, line, linenum, t));
    }

    /** do_agreed. */
    method DoAgreed(nick: string, line: string, linenum: nat, t: Time)
      requires Valid()
      modifies this`log, this`outbox
      ensures Snap() == AgreedStep(old(Snap()), nick, line, linenum, t)
      ensures Valid()
    {
      if !IsChairIn(Snap(), nick) { return; }
      AddItem(Item(AgreedItem, nick, line, linenum, t));
      if setup.config.beNoisy {
        Reply("AGREED: " + line);
      }
    }

    /** do_action. */
    method DoAction(nick: string, line: string, linenum: nat, t: Time)
      requires Valid()
      modifies this`log, this`outbox
      ensures Snap() == ActionStep(old(Snap()), nick, line, linenum, t)
      ensures Valid()
    {
      AddItem(Item(ActionItem, nick, line, linenum, t));
      if setup.config.beNoisy {
        Reply("ACTION: " + line);
      }
    }

    /** do_info, do_idea, do_help, do_link. */
    method DoOpenItem(kind: ItemType, nick: string, line: string, linenum: nat, t: Time)
      requires Valid()
      modifies this`log
      ensures Snap() == OpenItemStep(old(Snap()), kind, nick, line, linenum, t)
      ensures Valid()
    {
      AddItem(Item(kind, nick, line, linenum, t));
    }

    /** do_meetingtopic. */
    method DoMeetingTopic(nick: string, line: string)
      requires Valid()
      modifies this`topics, this`outbox
      ensures Snap() == MeetingTopicStep(old(Snap()), nick, line)
      ensures Valid()
    {
      if !IsChairIn(Snap(), nick) { return; }
      if line == "" || Lower(line) == "none" || Lower(line) == "unset" {
        topics := topics.(meetingTopic := None);
      } else {
        topics := topics.(meetingTopic := Some(line));
      }
      SetTopicNow();
    }

    /** do_save. */
    method DoSave(nick: string, t: Time) returns (raised: Option<Error>)
      requires Valid()
      modifies this`status, this`written
      ensures Stepped(Snap(), raised) == DoSaveStep(old(Snap()), nick, t)
      ensures Valid()
    {
      if !IsChairIn(Snap(), nick) { return None; }
      status := status.(endtime := Some(t));
      raised := Save(false);
    }

    /** The closing "Current chairs/voters" reply. */
    method ReplyRoster(title: string, names: seq<string>) returns (raised: Option<Error>)
      requires Valid()
      modifies this`outbox
      ensures Stepped(Snap(), raised) == RosterStep(old(Snap()), title, names)
      ensures Valid()
    {
      var m := Roster(title, names, setup.owner);
      if m.Err? {
        return Some(m.error);
      }
      Reply(m.value);
      raised := None;
    }

    /** do_private_commands. */
    method DoPrivateCommands(nick: string)
      modifies this`outbox
      ensures outbox == old(outbox) + PrivateEvents(setup.connected, status.lurk, nick, PrivateCommandsMessage())
    {
      PrivateReply(nick, PrivateCommandsMessage());
    }

    /** do_chair: the names of the line, then the roster. */
    method DoChair(nick: string, line: string) returns (raised: Option<Error>)
      requires Valid()
      modifies this`chairs, this`log, this`outbox
      ensures Stepped(Snap(), raised) == ChairStep(old(Snap()), nick, line)
      ensures Valid()
    {
      if !IsChairIn(Snap(), nick) { return None; }
      AddChairs(NameTokens(line));
      raised := ReplyRoster("Current chairs: ", chairs);
    }

    /** do_chair's loop over the names. */
    method AddChairs(tokens: seq<string>)
      requires Valid()
      modifies this`chairs, this`log, this`outbox
      ensures Snap() == ChairsAdded(old(Snap()), tokens)
      ensures Valid()
    {
      var cs, att, ev := ChairNames(chairs, log.attendees, tokens, setup.channelNicks, setup.connected, status.lurk,
                                   PrivateCommandsMessage());
      chairs, log, outbox := cs, log.(attendees := att), outbox + ev;
    }

    /** do_unchair: the listed chairs are removed, then the roster. */
    method DoUnchair(nick: string, line: string) returns (raised: Option<Error>)
      requires Valid()
      modifies this`chairs, this`outbox
      ensures Stepped(Snap(), raised) == UnchairStep(old(Snap()), nick, line)
      ensures Valid()
    {
      if !IsChairIn(Snap(), nick) { return None; }
      RemoveNamesSpec(chairs, NameTokens(line));
      chairs := UnchairNames(chairs, NameTokens(line));
      raised := ReplyRoster("Current chairs: ", chairs);
    }

    /** do_undo. */
    method DoUndo(nick: string)
      requires Valid()
      modifies this`log, this`outbox
      ensures Snap() == UndoStep(old(Snap()), nick)
      ensures Valid()
    {
      if !IsChairIn(Snap(), nick) { return; }
      if log.minutes == [] { return; }
      Reply("Removing item from minutes: " + ItemTypeName(log.minutes[|log.minutes| - 1].itemtype));
      log := log.(minutes := log.minutes[..|log.minutes| - 1]);
    }

    /** do_restrictlogs, with the permission mask read from the configuration. */
    method DoRestrictLogs(nick: string)
      requires Valid()
      modifies this`status, this`outbox
      ensures Snap() == RestrictLogsStep(old(Snap()), nick)
      ensures Valid()
    {
      if !IsChairIn(Snap(), nick) { return; }
      status := status.(restrictlogs := true);
      Reply("Restricting permissions on minutes: -" + RestrictPermOctal + " on next #save");
    }

    /** do_lurk and do_unlurk. */
    method DoLurk(nick: string, on: bool)
      requires Valid()
      modifies this`status
      ensures Snap() == LurkStep(old(Snap()), nick, on)
      ensures Valid()
    {
      if !IsChairIn(Snap(), nick) { return; }
      status := status.(lurk := on);
    }

    /** do_meetingname. */
    method DoMeetingName(nick: string, line: string)
      requires Valid()
      modifies this`topics, this`outbox
      ensures Snap() == MeetingNameStep(old(Snap()), nick, line)
      ensures Valid()
    {
      if !IsChairIn(Snap(), nick) { return; }
      topics := topics.(meetingname := MeetingName(line));
      Reply("Meeting name set to: " + topics.meetingname);
    }

    /** do_vote. */
    method DoVote(nick: string, line: string)
      requires Valid()
      modifies this`ballot, this`outbox
      ensures Snap() == VoteStep(old(Snap()), nick, line)
      ensures Valid()
    {
      if !IsChairIn(Snap(), nick) { return; }
      if ballot.activeVote != "" {
        Reply("Voting still open on: " + ballot.activeVote);
        return;
      }
      ballot := ballot.(activeVote := line, currentVote := [],
                        publicVoters := Put(ballot.publicVoters, line, []),
                        currentVoteStartLine := |log.lines|);
      Reply("Please vote on: " + ballot.activeVote);
      Reply(PublicVoteHelp);
    }

    /** do_votesrequired. */
    method DoVotesRequired(nick: string, line: string)
      requires Valid()
      modifies this`ballot, this`outbox
      ensures Snap() == VotesRequiredStep(old(Snap()), nick, line)
      ensures Valid()
    {
      if !IsChairIn(Snap(), nick) { return; }
      var n := ParseInt(line);
      if n.Some? {
        ballot := ballot.(votesrequired := n.value);
      } else {
        ballot := ballot.(votesrequired := 0);
      }
      Reply("Votes now need " + IntToString(ballot.votesrequired) + " to be passed");
    }

    /** do_endvote's loop: the casts counted in one pass. */
    static method CountVotes(values: seq<string>) returns (vfor: nat, vagainst: nat, vabstain: nat)
      ensures Counts(vfor, vagainst, vabstain) == Tally(values)
    {
      vfor, vagainst, vabstain := 0, 0, 0;
      var i := 0;
      while i < |values|
        invariant 0 <= i <= |values|
        invariant Counts(vfor, vagainst, vabstain) == Tally(values[..i])
      {
        assert values[..i + 1][..i] == values[..i];
        var kind := Classify(values[i]);
        if kind == For {
          vfor := vfor + 1;
        } else if kind == Against {
          vagainst := vagainst + 1;
        } else if kind == Abstain {
          vabstain := vabstain + 1;
        }
        i := i + 1;
      }
      assert values[..|values|] == values;
    }

    /** do_endvote: the casts are counted, the result is replied, stored and minuted. */
    method DoEndVote(nick: string, linenum: nat, t: Time)
      requires Valid()
      modifies this`outbox, this`ballot, this`log
      ensures Snap() == EndVoteStep(old(Snap()), nick, linenum, t)
      ensures Valid()
    {
      if !IsChairIn(Snap(), nick) { return; }
      if ballot.activeVote == "" {
        Reply("No vote in progress");
        return;
      }
      CloseVote(nick, linenum, t);
    }

    /** The rest of do_endvote, with a vote open. */
    method CloseVote(nick: string, linenum: nat, t: Time)
      requires Valid()
      modifies this`outbox, this`ballot, this`log
      ensures Snap() == ClosedVote(old(Snap()), nick, linenum, t)
      ensures Valid()
    {
      ghost var s0 := Snap();
      var b := ballot;
      var conn, lurk := setup.connected, status.lurk;
      var vfor, vagainst, vabstain := CountVotes(Values(b.currentVote));
      var c := Counts(vfor, vagainst, vabstain);
      var replies := [ReplyEvent(conn, lurk, "Voting ended on: " + b.activeVote),
                      ReplyEvent(conn, lurk, "Votes for: " + NatToString(vfor) + ", Votes against: " + NatToString(vagainst)
                          + ", Abstentions: " + NatToString(vabstain))];
      var voteResult;
      if vfor - vagainst >= b.votesrequired {
        replies := replies + [ReplyEvent(conn, lurk, "Motion carried")];
        voteResult := "Carried";
      } else if vfor - vagainst < b.votesrequired {
        replies := replies + [ReplyEvent(conn, lurk, "Motion denied")];
        voteResult := "Denied";
      } else {
        assert false;
      }
      assert c == Tally(Values(s0.currentVote)) && voteResult == Outcome(c, s0.votesrequired);
      assert replies == EndVoteReplies(s0, c);
      outbox := outbox + replies;
      log := log.(minutes := log.minutes + [Item(VoteItem, nick, b.activeVote + " (" + voteResult + ")", linenum, t)]);
      ballot := b.(votes := Put(b.votes, b.activeVote, (Summary(c, b.votesrequired), b.currentVoteStartLine)),
                   activeVote := "", currentVote := [], currentVoteStartLine := 0);
    }

    /** do_voters: names join the voters until one of them resets the list to everyone. */
    method DoVoters(nick: string, line: string) returns (raised: Option<Error>)
      requires Valid()
      modifies this`voters, this`log, this`outbox
      ensures Stepped(Snap(), raised) == VotersStep(old(Snap()), nick, line)
      ensures Valid()
    {
      if !IsChairIn(Snap(), nick) { return None; }
      var everyone := AddVoters(NameTokens(line));
      if everyone {
        voters := [];
        Reply("Everyone can now vote");
        return None;
      }
      raised := ReplyRoster("Current voters: ", voters);
    }

    /** do_voters' loop over the names; `everyone` says whether a resetting name stopped it. */
    method AddVoters(tokens: seq<string>) returns (everyone: bool)
      requires Valid()
      modifies this`voters, this`log, this`outbox
      ensures everyone == (FirstEveryone(tokens) < |tokens|)
      ensures Snap() == VotersAdded(old(Snap()), tokens[..FirstEveryone(tokens)])
      ensures Valid()
    {
      var vs, att, ev;
      vs, att, ev, everyone := VoterNames(voters, log.attendees, tokens, setup.channelNicks, setup.connected, status.lurk);
      voters, log, outbox := vs, log.(attendees := att), outbox + ev;
    }

    /** do_nick. */
    method DoNick(line: string)
      requires Valid()
      modifies this`log
      ensures Snap() == NickStep(old(Snap()), line)
      ensures Valid()
    {
      var att := NickNames(log.attendees, NameTokens(line));
      log := log.(attendees := att);
    }

    /** do_commands. */
    method DoCommands()
      modifies this`outbox
      ensures outbox == old(outbox) + [ReplyEvent(setup.connected, status.lurk, CommandsMessage)]
    {
      Reply(CommandsMessage);
    }

    /** do_private_commands for each chair in turn: the messages, not yet sent. */
    method ChairCommandLists(msg: string) returns (evs: seq<Output>)
      ensures evs == CommandLists(setup.connected, status.lurk, chairs, msg)
    {
      evs := [];
      var i := 0;
      while i < |chairs|
        invariant 0 <= i <= |chairs|
        invariant evs == CommandLists(setup.connected, status.lurk, chairs[..i], msg)
      {
        assert chairs[..i + 1][..i] == chairs[..i];
        evs := evs + PrivateEvents(setup.connected, status.lurk, chairs[i], msg);
        i := i + 1;
      }
      assert chairs[..|chairs|] == chairs;
    }

    /** The opening of do_startmeeting, up to the command list. */
    method Greet(t: Time) returns (raised: Option<Error>)
      requires Valid()
      modifies this`status, this`outbox
      ensures Stepped(Snap(), raised) == Greeted(old(Snap()), t)
      ensures Valid()
    {
      status := status.(starttime := Some(t));
      var message := Message(Snap(), setup.config.startMeetingMessage);
      raised := GreetWithMessage(message);
    }

    /** The replies of do_startmeeting for a formatted start message. */
    method GreetWithMessage(message: Result<string>) returns (raised: Option<Error>)
      requires Valid()
      modifies this`outbox
      ensures Stepped(Snap(), raised) == GreetWith(old(Snap()), message)
      ensures Valid()
    {
      if message.Err? {
        return Some(message.error);
      }
      var greeting := Replies(Split(message.value, "\n"));
      ghost var s0 := Snap();
      var commands := PrivateCommandsMessage();
      var lists := ChairCommandLists(commands);
      outbox := outbox + greeting
        + PrivateEvents(setup.connected, status.lurk, PyStr(setup.owner), commands)
        + lists + [ReplyEvent(setup.connected, status.lurk, CommandsMessage)];
      raised := None;
      assert Snap() == s0.(outbox := outbox);
    }

    /** do_startmeeting. */
    method DoStartMeeting(nick: string, line: string, t: Time) returns (raised: Option<Error>)
      requires Valid()
      modifies this`status, this`outbox, this`topics
      ensures Stepped(Snap(), raised) == StartMeetingStep(old(Snap()), nick, line, t)
      ensures Valid()
    {
      raised := Greet(t);
      if raised.None? && line != "" {
        DoMeetingTopic(nick, line);
      }
    }

    /** The steps of do_endmeeting before the save. */
    method CloseMeeting(nick: string, linenum: nat, t: Time, now: Time)
      requires Valid()
      modifies this`outbox, this`ballot, this`log, this`status
      ensures Snap() == Closing(old(Snap()), nick, linenum, t, now)
      ensures Valid()
    {
      if ballot.activeVote != "" {
        DoEndVote(nick, linenum, now);
      }
      if topics.oldtopic.Some? && topics.oldtopic.value != "" {
        Topic(topics.oldtopic.value);
      }
      status := status.(endtime := Some(t));
    }

    /** The end-of-meeting notifications, formatted afresh for each nick as the source does. */
    method Notify(repl: map<string, string>) returns (raised: Option<Error>)
      modifies this`outbox
      ensures var nicks := setup.config.endMeetingNotificationList;
        if nicks == [] then outbox == old(outbox) && raised.None?
        else (match PercentFormat(setup.config.endMeetingNotification, repl)
          case Err(e) => outbox == old(outbox) && raised == Some(e)
          case Ok(n) => raised.None? && outbox == old(outbox) + Notifications(setup.connected, status.lurk, nicks, n))
    {
      var nicks := setup.config.endMeetingNotificationList;
      var out := outbox;
      var i := 0;
      while i < |nicks|
        invariant 0 <= i <= |nicks|
        invariant i > 0 ==> PercentFormat(setup.config.endMeetingNotification, repl).Ok?
        invariant i > 0 ==> (out == outbox
          + Notifications(setup.connected, status.lurk, nicks[..i], PercentFormat(setup.config.endMeetingNotification, repl).value))
        invariant i == 0 ==> out == outbox
        modifies {}
      {
        var note := PercentFormat(setup.config.endMeetingNotification, repl);
        if note.Err? {
          return Some(note.error);
        }
        assert nicks[..i + 1][..i] == nicks[..i];
        out := out + PrivateEvents(setup.connected, status.lurk, nicks[i], note.value);
        i := i + 1;
      }
      assert nicks[..|nicks|] == nicks;
      outbox := out;
      raised := None;
    }

    /** The end message, the meeting marked over, the notifications. */
    method Announce() returns (raised: Option<Error>)
      requires Valid()
      modifies this`outbox, this`status
      ensures Stepped(Snap(), raised) == Announced(old(Snap()))
      ensures Valid()
    {
      var repl := Replacements(Snap());
      raised := AnnounceWithReplacements(repl);
    }

    /** Announce, once the replacements are computed. */
    method AnnounceWithReplacements(repl: Result<map<string, string>>) returns (raised: Option<Error>)
      requires Valid()
      modifies this`outbox, this`status
      ensures Stepped(Snap(), raised) == AnnounceWith(old(Snap()), repl)
      ensures Valid()
    {
      if repl.Err? {
        return Some(repl.error);
      }
      var message := PercentFormat(setup.config.endMeetingMessage, repl.value);
      if message.Err? {
        return Some(message.error);
      }
      ReplyAll(Split(message.value, "\n"));
      status := status.(meetingIsOver := true);
      raised := Notify(repl.value);
    }

    /** do_endmeeting. */
    method DoEndMeeting(nick: string, linenum: nat, t: Time, now: Time) returns (raised: Option<Error>)
      requires Valid()
      modifies this`outbox, this`ballot, this`log, this`status, this`written
      ensures Stepped(Snap(), raised) == EndMeetingStep(old(Snap()), nick, "", linenum, t, now)
      ensures Valid()
    {
      if !IsChairIn(Snap(), nick) { return None; }
      CloseMeeting(nick, linenum, t, now);
      raised := Save(false);
      if raised.Some? { return; }
      raised := Announce();
    }

    /** The call `getattr(self, "do_" + command)(nick=..., line=..., linenum=..., time_=...)`. */
    method Handle(h: Handler, nick: string, arg: string, linenum: nat, t: Time, now: Time) returns (raised: Option<Error>)
      requires Valid()
      modifies this
      ensures Stepped(Snap(), raised) == HandlerStep(h, old(Snap()), nick, arg, linenum, t, now)
      ensures Valid()
    {
      if ItemHandler(h) {
        HandleItem(h, nick, arg, linenum, t);
        raised := None;
      } else if PeopleHandler(h) {
        raised := HandlePeople(h, nick, arg, linenum, t);
      } else if SessionHandler(h) {
        raised := HandleSession(h, nick, arg, linenum, t, now);
      } else {
        HandleSetting(h, nick, arg);
        raised := None;
      }
    }

    /** The minutes commands. */
    method HandleItem(h: Handler, nick: string, arg: string, linenum: nat, t: Time)
      requires Valid() && ItemHandler(h)
      modifies this`topics, this`log, this`outbox
      ensures Snap() == ItemStep(h, old(Snap()), nick, arg, linenum, t)
      ensures Valid()
    {
      if h.TopicCmd? {
        DoTopic(nick, arg, linenum, t);
      } else if h.AgreedCmd? {
        DoAgreed(nick, arg, linenum, t);
      } else if h.UndoCmd? {
        DoUndo(nick);
      } else if h.ActionCmd? {
        DoAction(nick, arg, linenum, t);
      } else if h.SubtopicCmd? {
        DoChairItem(SubtopicItem, nick, arg, linenum, t);
      } else if h.DoneCmd? {
        DoChairItem(DoneItem, nick, arg, linenum, t);
      } else if h.AcceptedCmd? {
        DoChairItem(AcceptedItem, nick, arg, linenum, t);
      } else if h.RejectedCmd? {
        DoChairItem(RejectedItem, nick, arg, linenum, t);
      } else if h.InfoCmd? {
        DoOpenItem(InfoItem, nick, arg, linenum, t);
      } else if h.IdeaCmd? {
        DoOpenItem(IdeaItem, nick, arg, linenum, t);
      } else if h.HelpCmd? {
        DoOpenItem(HelpItem, nick, arg, linenum, t);
      } else {
        DoOpenItem(LinkItem, nick, arg, linenum, t);
      }
    }

    /** The chair, voter, vote and nick commands. */
    method HandlePeople(h: Handler, nick: string, arg: string, linenum: nat, t: Time) returns (raised: Option<Error>)
      requires Valid() && PeopleHandler(h)
      modifies this`chairs, this`voters, this`ballot, this`log, this`outbox
      ensures Stepped(Snap(), raised) == PeopleStep(h, old(Snap()), nick, arg, linenum, t)
      ensures Valid()
    {
      raised := None;
      if h.ChairCmd? {
        raised := DoChair(nick, arg);
      } else if h.UnchairCmd? {
        raised := DoUnchair(nick, arg);
      } else if h.VotersCmd? {
        raised := DoVoters(nick, arg);
      } else if h.VoteCmd? {
        DoVote(nick, arg);
      } else if h.VotesRequiredCmd? {
        DoVotesRequired(nick, arg);
      } else if h.EndVoteCmd? {
        DoEndVote(nick, linenum, t);
      } else {
        DoNick(arg);
      }
    }

    /** The commands that start, end or save the meeting, and #replay. */
    method HandleSession(h: Handler, nick: string, arg: string, linenum: nat, t: Time, now: Time) returns (raised: Option<Error>)
      requires Valid() && SessionHandler(h)
      modifies this
      ensures Stepped(Snap(), raised) == SessionStep(h, old(Snap()), nick, arg, linenum, t, now)
      ensures Valid()
    {
      raised := None;
      if h.ReplayCmd? {
        Reply("Looking for meetings in: " + arg);
      } else if h.StartMeetingCmd? {
        raised := DoStartMeeting(nick, arg, t);
      } else if h.EndMeetingCmd? {
        raised := DoEndMeeting(nick, linenum, t, now);
      } else {
        raised := DoSave(nick, t);
      }
    }

    /** The meeting's name and topic, the log and lurk flags, and help. */
    method HandleSetting(h: Handler, nick: string, arg: string)
      requires Valid() && !ItemHandler(h) && !PeopleHandler(h) && !SessionHandler(h)
      modifies this`topics, this`status, this`outbox
      ensures Snap() == SettingStep(h, old(Snap()), nick, arg)
      ensures Valid()
    {
      if h.MeetingTopicCmd? {
        DoMeetingTopic(nick, arg);
      } else if h.RestrictLogsCmd? {
        DoRestrictLogs(nick);
      } else if h.LurkCmd? {
        DoLurk(nick, true);
      } else if h.UnlurkCmd? {
        DoLurk(nick, false);
      } else if h.MeetingNameCmd? {
        DoMeetingName(nick, arg);
      } else if h.PrivateCommandsCmd? {
        DoPrivateCommands(nick);
      } else {
        DoCommands();
      }
    }

    /** The logging half of addline: addrawline, then the op flag; the result is the line number. */
    method Log(nick: string, line: string, isop: bool, t: Time) returns (linenum: nat)
      requires Valid()
      modifies this`log, this`status
      ensures Snap() == Logged(old(Snap()), nick, line, isop, t)
      ensures Valid()
      ensures linenum == |log.lines|
    {
      linenum := AddRawLine(nick, line, t);
      status := status.(isop := isop);
    }

    /** The end of addline: the realtime save, then the cast when the text looks like a vote. */
    method FinishLine(raised0: Option<Error>, nick: string, text: string) returns (raised: Option<Error>)
      requires Valid()
      modifies this`written, this`ballot, this`outbox
      ensures Stepped(Snap(), raised) == Finish(Stepped(old(Snap()), raised0), nick, text)
      ensures Valid()
    {
      if raised0.Some? { return raised0; }
      raised := Save(true);
      if raised.Some? { return; }
      if VoteShaped(text) {
        DoCastVote(nick, text, false);
      }
    }

    /** addline once the line is logged: its command or its link, then FinishLine. */
    method DispatchLine(nick: string, line: string, t: Time, now: Time) returns (raised: Option<Error>)
      requires Valid()
      modifies this
      ensures Stepped(Snap(), raised) == Dispatch(old(Snap()), nick, line, t, now)
      ensures Valid()
    {
      var linenum := |log.lines|;
      var parsed := ParseCommand(line);
      if parsed.Some? {
        var (command, arg) := parsed.value;
        var h := CommandOf(Lower(command));
        if h.Some? {
          raised := Handle(h.value, nick, arg, linenum, t, now);
        } else {
          raised := None;
        }
        raised := FinishLine(raised, nick, arg);
      } else {
        if IsUrlLine(line, setup.config.urlProtocols) {
          DoOpenItem(LinkItem, nick, line, linenum, t);
        }
        raised := FinishLine(None, nick, line);
      }
    }

    /**
     * addline: log the line, run its command or detect its URL, save the
     * realtime files, then take the remaining text as a vote if it looks
     * like one.  An exception anywhere ends the call and is returned.
     */
    method AddLine(nick: string, line: string, isop: bool, time_: Option<Time>, now: Time) returns (raised: Option<Error>)
      requires Valid()
      modifies this
      ensures Stepped(Snap(), raised) == LineStep(old(Snap()), nick, line, isop, TimeOr(time_, now), now)
      ensures Valid()
    {
      var t := TimeOr(time_, now);
      var _ := Log(nick, line, isop, t);
      raised := DispatchLine(nick, line, t, now);
    }
  }
}
