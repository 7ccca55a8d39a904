// The state of a meeting.Meeting as a value, and the parts of its
// behaviour that are pure functions of that state: how a raw line is
// logged, how a vote is cast, how the name lists of #chair, #unchair,
// #voters and #nick evolve, what the bot says while they run, and the
// substitutions of its start and end messages.
module MeetingSteps {
  import opened Wrappers
  import opened Strings
  import opened Clock
  import opened Dicts
  import opened Items
  import opened Grammar
  import opened Votes
  import opened WriterKinds
  import opened ConfigSave

  /** What the bot sends or prints. */
  datatype Output =
    | Reply(text: string)
    | PrivateReply(nick: string, text: string)
    | SetTopic(text: string)
    /** A TOPIC message with no text: what the topic callback sends when handed None. */
    | QueryTopic
    | Printed(text: string)

  /** The channel callbacks plus the lurk flag decide what a reply becomes: sent, or printed. */
  function ReplyEvent(connected: bool, lurk: bool, text: string): Output {
    if connected && !lurk then Reply(text) else Printed("REPLY: " + text)
  }

  function TopicEvent(connected: bool, lurk: bool, text: string): Output {
    if connected && !lurk then SetTopic(text) else Printed("TOPIC: " + text)
  }

  /** topic() handed an optional string: a missing one reaches the callback as None, and prints as "None". */
  function TopicEventOf(connected: bool, lurk: bool, x: Option<string>): (r: Output)
    ensures x.Some? ==> r == TopicEvent(connected, lurk, x.value)
    ensures x.None? && connected && !lurk ==> r == QueryTopic
    ensures x.None? && !(connected && !lurk) ==> r == Printed("TOPIC: " + "None")
  {
    if x.None? && connected && !lurk then QueryTopic else TopicEvent(connected, lurk, PyStr(x))
  }

  /** A private reply is sent or dropped, never printed. */
  function PrivateEvents(connected: bool, lurk: bool, nick: string, text: string): seq<Output> {
    if connected && !lurk then [PrivateReply(nick, text)] else []
  }

  /** The Config attributes a meeting reads besides the ones Config.save reads. */
  datatype MeetingConfig = MeetingConfig(
    files: Settings,
    writerMap: seq<(string, WriterKind)>,
    urlProtocols: seq<string>,
    meetBotInfoURL: string,
    timeZone: string,
    startMeetingMessage: string,
    endMeetingMessage: string,
    endMeetingNotification: string,
    endMeetingNotificationList: seq<string>,
    beNoisy: bool)

  /** The class attributes of meeting.Config. */
  const DefaultConfig: MeetingConfig := MeetingConfig(
    Settings("/var/www/mootbot/", "", "%(channel)s/%%Y/%(channel)s.%%F-%%H.%%M",
             ["#meetbot-test", "#meetbot-test2"], "%(channel)s/%(channel)s", "", false, []),
    DefaultWriterMap,
    UrlProtocols,
    "https://wiki.debian.org/MeetBot",
    "UTC",
    "Meeting started at %(starttime)s %(timeZone)s.  The chair is %(chair)s.  "
      + "Information about MeetBot at %(MeetBotInfoURL)s",
    "Meeting ended at %(endtime)s %(timeZone)s.  Minutes at %(urlBasename)s.moin.txt",
    "Meeting in %(channel)s has just ended",
    ["jose"],
    true)

  /**
   * Every attribute of a Meeting the bot reads or writes, grouped by
   * concern; each attribute is also readable under its own name.  Dicts are
   * sequences of pairs in insertion order; `chairs` and `voters`, dicts whose
   * values are all True, are their key lists.  `owner` is None in a replayed
   * meeting until the first spoken line; `starttime` None means the
   * attribute does not exist yet; `filename` "" means _filename is unset.
   */
  /** The attributes fixed when the meeting is created; only a replay sets the owner later. */
  datatype Setup = Setup(config: MeetingConfig, owner: Option<string>, channel: string, network: string,
                         filename: string, channelNicks: Option<set<string>>, connected: bool)

  /** The channel topic pieces and the meeting name. */
  datatype Topics = Topics(currenttopic: string, oldtopic: Option<string>, meetingTopic: Option<string>,
                           meetingname: string)

  /** The transcript and what addline and the item commands derive from it. */
  datatype Transcript = Transcript(lines: seq<string>, minutes: seq<Item>, attendees: seq<(string, nat)>)

  /** The attributes of the vote commands. */
  datatype Ballot = Ballot(publicVoters: seq<(string, seq<string>)>, votes: seq<(string, (string, nat))>,
                           votesrequired: int, activeVote: string, currentVote: seq<(string, string)>,
                           currentVoteStartLine: nat)

  /** The flags and the two times. */
  datatype Status = Status(meetingIsOver: bool, lurk: bool, restrictlogs: bool, isop: bool,
                           starttime: Option<Time>, endtime: Option<Time>)

  datatype MeetingState = MeetingState(
    setup: Setup,
    topics: Topics,
    log: Transcript,
    chairs: seq<string>,
    voters: seq<string>,
    ballot: Ballot,
    status: Status,
    outbox: seq<Output>,
    written: seq<FileWrite>)
  {
    const config: MeetingConfig := setup.config
    const owner: Option<string> := setup.owner
    const channel: string := setup.channel
    const network: string := setup.network
    const filename: string := setup.filename
    const channelNicks: Option<set<string>> := setup.channelNicks
    const connected: bool := setup.connected
    const currenttopic: string := topics.currenttopic
    const oldtopic: Option<string> := topics.oldtopic
    const meetingTopic: Option<string> := topics.meetingTopic
    const meetingname: string := topics.meetingname
    const lines: seq<string> := log.lines
    const minutes: seq<Item> := log.minutes
    const attendees: seq<(string, nat)> := log.attendees
    const publicVoters: seq<(string, seq<string>)> := ballot.publicVoters
    const votes: seq<(string, (string, nat))> := ballot.votes
    const votesrequired: int := ballot.votesrequired
    const activeVote: string := ballot.activeVote
    const currentVote: seq<(string, string)> := ballot.currentVote
    const currentVoteStartLine: nat := ballot.currentVoteStartLine
    const meetingIsOver: bool := status.meetingIsOver
    const lurk: bool := status.lurk
    const restrictlogs: bool := status.restrictlogs
    const isop: bool := status.isop
    const starttime: Option<Time> := status.starttime
    const endtime: Option<Time> := status.endtime
  }

  /**
   * What every reachable meeting satisfies: dict keys are distinct, an open
   * vote has its public voter list, and the start line of the open vote is
   * a line of the transcript.
   */
  predicate Inv(s: MeetingState) {
    UniqueKeys(s.attendees) && UniqueKeys(s.publicVoters) && UniqueKeys(s.votes)
    && UniqueKeys(s.currentVote) && Distinct(s.chairs) && Distinct(s.voters)
    && (s.activeVote != "" ==> HasKey(s.publicVoters, s.activeVote))
    && s.currentVoteStartLine <= |s.lines|
  }

  /**
   * Meeting.__init__: an empty meeting.  `cfg` is the configuration after
   * extraConfig has been applied; the writers are built from its writer
   * map, the raw log first when asked for.  An empty old topic is None.
   */
  function Fresh(cfg: MeetingConfig, channel: string, owner: Option<string>, oldtopic: string,
                 filename: string, writeRawLog: bool, connected: bool,
                 channelNicks: Option<set<string>>, network: string): (r: MeetingState)
    ensures Inv(r)
    ensures r.oldtopic.None? <==> oldtopic == ""
    ensures writeRawLog ==> |r.config.files.writers| >= 1 && r.config.files.writers[0].0 == ".log.txt"
    ensures r.lines == [] && r.minutes == [] && r.activeVote == "" && r.starttime.None?
  {
    var files := cfg.files.(writers := BuildWriters(writeRawLog, cfg.writerMap));
    MeetingState(Setup(cfg.(files := files), owner, channel, network, filename, channelNicks, connected),
                 Topics("", if oldtopic != "" then Some(oldtopic) else None, None, ""),
                 Transcript([], [], []), [], [], Ballot([], [], 0, "", [], 0),
                 Status(false, false, false, false, None, None), [], [])
  }

  /** isChair: the owner, a listed chair, or a channel operator (the flag addline sets). */
  predicate IsChairIn(s: MeetingState, nick: string) {
    s.owner == Some(nick) || nick in s.chairs || s.isop
  }

  /** A reply in the meeting's current channel mode. */
  function Say(s: MeetingState, text: string): Output {
    ReplyEvent(s.connected, s.lurk, text)
  }

  /** process_meeting's `M.owner = nick; M.chairs = {nick: True}`: the speaker owns the meeting and is its only chair. */
  function Owned(s: MeetingState, nick: string): (r: MeetingState)
    requires Inv(s)
    ensures Inv(r)
  {
    s.(setup := s.setup.(owner := Some(nick)), chairs := [nick])
  }

  /** `if not time_: time_ = time.localtime()`, with the clock reading passed in. */
  function TimeOr(t: Option<Time>, now: Time): Time {
    if t.Some? then t.value else now
  }

  /** attendees.get(nick, 0). */
  function Count(d: seq<(string, nat)>, k: string): nat {
    if HasKey(d, k) then Get(d, k) else 0
  }

  lemma CountPut(d: seq<(string, nat)>, k: string, v: nat, j: string)
    requires UniqueKeys(d)
    ensures Count(Put(d, k, v), j) == if j == k then v else Count(d, j)
  {
    var r := Put(d, k, v);
    PutOthers(d, k, v);
    if j != k {
      if HasKey(d, j) {
        var i := IndexOf(d, j);
        assert d[i] in r;
      }
      if HasKey(r, j) {
        var i := IndexOf(r, j);
        assert r[i] in d;
      }
    }
  }

  predicate IsMarker(c: char) { c == '\U{0001}' }

  /** addrawline's transcript entry: `HH:MM * nick text` for a CTCP ACTION, else `HH:MM <nick> line`. */
  function LogLine(nick: string, line: string, t: Time): string {
    var l := Strip(line, IsMarker);
    var stamp := Strftime("%H:%M", t);
    if StartsWith(l, "ACTION") then
      stamp + " * " + nick + " " + LStrip(if |l| >= 7 then l[7..] else "", IsSpace)
    else stamp + " <" + nick + "> " + l
  }

  lemma StripNothing(s: string, p: char -> bool)
    requires forall c | c in s :: !p(c)
    ensures Strip(s, p) == s
  {
    if s != [] {
      assert s[0] in s;
      assert SkipWhile(s, 0, p) == 0;
      assert s[|s| - 1] in s;
    }
  }

  /** A spoken line is logged verbatim after the stamp and the bracketed nick. */
  lemma LogLineSpoken(nick: string, line: string, t: Time)
    requires forall c | c in line :: !IsMarker(c)
    requires !StartsWith(line, "ACTION")
    ensures LogLine(nick, line, t) == Strftime("%H:%M", t) + " <" + nick + "> " + line
  {
    StripNothing(line, IsMarker);
  }

  /** An ACTION line is logged as `* nick` and its text, leading blanks dropped. */
  lemma LogLineAction(nick: string, text: string, t: Time)
    requires forall c | c in text :: !IsMarker(c)
    ensures LogLine(nick, "ACTION " + text, t) == Strftime("%H:%M", t) + " * " + nick + " " + LStrip(text, IsSpace)
  {
    var l := "ACTION " + text;
    assert forall c | c in l :: !IsMarker(c) by {
      forall c | c in l ensures !IsMarker(c) {
        if c !in text {
          assert c in "ACTION ";
        }
      }
    }
    StripNothing(l, IsMarker);
    assert l[..6] == "ACTION";
    assert l[7..] == text;
  }

  /** addrawline: the speaker's line count grows by one and the entry is appended. */
  function RawLineStep(s: MeetingState, nick: string, line: string, t: Time): (r: MeetingState)
    requires Inv(s)
    ensures Inv(r)
    ensures r.lines == s.lines + [LogLine(nick, line, t)]
    ensures Count(r.attendees, nick) == Count(s.attendees, nick) + 1
    ensures forall k | k != nick :: Count(r.attendees, k) == Count(s.attendees, k)
  {
    forall k ensures Count(Put(s.attendees, nick, Count(s.attendees, nick) + 1), k)
      == if k == nick then Count(s.attendees, nick) + 1 else Count(s.attendees, k) {
      CountPut(s.attendees, nick, Count(s.attendees, nick) + 1, k);
    }
    s.(log := s.log.(attendees := Put(s.attendees, nick, Count(s.attendees, nick) + 1),
                     lines := s.lines + [LogLine(nick, line, t)]))
  }

  /**
   * doCastVote: with a vote open and the nick allowed (an empty voter list
   * allows everyone, the owner included only through that list), the cast
   * overwrites the nick's earlier one; a public cast also appends the nick
   * to the vote's public list and is acknowledged.
   */
  function CastStep(s: MeetingState, nick: string, line: string, private: bool): (r: MeetingState)
    requires Inv(s)
    ensures Inv(r)
    ensures !MayCast(s.voters, s.activeVote, nick) ==> r == s
    ensures r.(ballot := r.ballot.(currentVote := s.currentVote, publicVoters := s.publicVoters), outbox := s.outbox) == s
  {
    if !MayCast(s.voters, s.activeVote, nick) then s
    else
      var s1 := s.(ballot := s.ballot.(currentVote := Put(s.currentVote, nick, line)));
      if private then s1
      else
        var pv := Put(s.publicVoters, s.activeVote, Get(s.publicVoters, s.activeVote) + [nick]);
        s1.(ballot := s1.ballot.(publicVoters := pv),
            outbox := s.outbox + [ReplyEvent(s.connected, s.lurk, line + " received from " + nick)])
  }

  /** An accepted cast is the nick's current vote, and other nicks' casts stay as they were. */
  lemma CastRecorded(s: MeetingState, nick: string, line: string, private: bool)
    requires Inv(s) && MayCast(s.voters, s.activeVote, nick)
    ensures var r := CastStep(s, nick, line, private);
      HasKey(r.currentVote, nick) && Get(r.currentVote, nick) == line
      && (forall i | 0 <= i < |s.currentVote| && s.currentVote[i].0 != nick :: s.currentVote[i] in r.currentVote)
      && (forall i | 0 <= i < |r.currentVote| && r.currentVote[i].0 != nick :: r.currentVote[i] in s.currentVote)
  {
    PutOthers(s.currentVote, nick, line);
  }

  /**
   * A public cast appends the nick to the open vote's public list (a second
   * cast appends it again) and is acknowledged; a private one does neither.
   */
  lemma CastPublic(s: MeetingState, nick: string, line: string, private: bool)
    requires Inv(s) && MayCast(s.voters, s.activeVote, nick)
    ensures var r := CastStep(s, nick, line, private);
      (private ==> r.publicVoters == s.publicVoters && r.outbox == s.outbox)
      && (!private ==>
            (HasKey(r.publicVoters, s.activeVote)
             && Get(r.publicVoters, s.activeVote) == Get(s.publicVoters, s.activeVote) + [nick]
             && r.outbox == s.outbox + [ReplyEvent(s.connected, s.lurk, line + " received from " + nick)]))
  {
  }

  /** re.split('[, ]+', line): the tokens of #chair, #unchair, #voters and #nick. */
  predicate IsNameSep(c: char) { c == ',' || c == ' ' }

  function NameTokens(line: string): seq<string> {
    SplitRuns(line, IsNameSep)
  }

  /** The key list after `d[t] = True` for each non-empty token not yet present. */
  function AddNames(known: seq<string>, tokens: seq<string>): (r: seq<string>)
    decreases |tokens|
  {
    if tokens == [] then known
    else
      var k := AddNames(known, tokens[..|tokens| - 1]);
      var t := tokens[|tokens| - 1];
      if t == "" || t in k then k else k + [t]
  }

  /** The names are kept in place, and exactly the non-empty tokens are added, once each. */
  lemma {:induction false} AddNamesSpec(known: seq<string>, tokens: seq<string>)
    ensures known <= AddNames(known, tokens)
    ensures forall x :: x in AddNames(known, tokens) <==> x in known || (x in tokens && x != "")
    ensures Distinct(known) ==> Distinct(AddNames(known, tokens))
    decreases |tokens|
  {
    if tokens != [] {
      var init := tokens[..|tokens| - 1];
      AddNamesSpec(known, init);
      assert tokens == init + [tokens[|tokens| - 1]];
    }
  }

  /** The key list after `del d[t]` for each non-empty token present. */
  function RemoveNames(names: seq<string>, tokens: seq<string>): (r: seq<string>)
    decreases |tokens|
  {
    if tokens == [] then names
    else
      var k := RemoveNames(names, tokens[..|tokens| - 1]);
      var t := tokens[|tokens| - 1];
      if t == "" then k else Without(k, t)
  }

  function Without(names: seq<string>, t: string): (r: seq<string>)
    ensures forall x :: x in r <==> x in names && x != t
    ensures Distinct(names) ==> Distinct(r)
  {
    if names == [] then []
    else
      var rest := Without(names[1..], t);
      assert forall x :: x in names <==> x == names[0] || x in names[1..] by {
        assert names == [names[0]] + names[1..];
      }
      if names[0] == t then rest
      else
        assert forall j | 0 <= j < |names| - 1 :: names[1..][j] == names[j + 1];
        assert Distinct(names) ==> names[0] !in names[1..];
        DistinctCons(names[0], rest);
        [names[0]] + rest
  }

  /** Removing a name that is not there changes nothing. */
  lemma {:induction false} WithoutAbsent(names: seq<string>, t: string)
    requires t !in names
    ensures Without(names, t) == names
  {
    if names != [] {
      assert forall x | x in names[1..] :: x in names;
      WithoutAbsent(names[1..], t);
    }
  }

  lemma DistinctCons(a: string, rest: seq<string>)
    ensures a !in rest && Distinct(rest) ==> Distinct([a] + rest)
  {
    assert forall i | 1 <= i < |[a] + rest| :: ([a] + rest)[i] == rest[i - 1];
  }

  /** Exactly the listed names go; every other name stays. */
  lemma {:induction false} RemoveNamesSpec(names: seq<string>, tokens: seq<string>)
    ensures forall x :: x in RemoveNames(names, tokens) <==> x in names && !(x in tokens && x != "")
    ensures Distinct(names) ==> Distinct(RemoveNames(names, tokens))
    decreases |tokens|
  {
    if tokens != [] {
      var init := tokens[..|tokens| - 1];
      RemoveNamesSpec(names, init);
      assert tokens == init + [tokens[|tokens| - 1]];
    }
  }

  /** addnick(t, lines=0) for each token the name loop adds. */
  function TouchNew(d: seq<(string, nat)>, known: seq<string>, tokens: seq<string>): (r: seq<(string, nat)>)
    requires UniqueKeys(d)
    ensures UniqueKeys(r)
    decreases |tokens|
  {
    if tokens == [] then d
    else
      var d1 := TouchNew(d, known, tokens[..|tokens| - 1]);
      var t := tokens[|tokens| - 1];
      if t == "" || t in AddNames(known, tokens[..|tokens| - 1]) then d1 else Put(d1, t, Count(d1, t))
  }

  /** Registering a nick with zero lines never changes anyone's line count. */
  lemma {:induction false} TouchNewCounts(d: seq<(string, nat)>, known: seq<string>, tokens: seq<string>, x: string)
    requires UniqueKeys(d)
    ensures Count(TouchNew(d, known, tokens), x) == Count(d, x)
    decreases |tokens|
  {
    if tokens != [] {
      var init := tokens[..|tokens| - 1];
      TouchNewCounts(d, known, init, x);
      var d1 := TouchNew(d, known, init);
      var t := tokens[|tokens| - 1];
      if !(t == "" || t in AddNames(known, init)) {
        CountPut(d1, t, Count(d1, t), x);
      }
    }
  }

  /** `addnick(t, lines=0)` for every non-empty token (#nick). */
  function TouchAll(d: seq<(string, nat)>, tokens: seq<string>): (r: seq<(string, nat)>)
    requires UniqueKeys(d)
    ensures UniqueKeys(r)
    decreases |tokens|
  {
    if tokens == [] then d
    else
      var d1 := TouchAll(d, tokens[..|tokens| - 1]);
      var t := tokens[|tokens| - 1];
      if t == "" then d1 else Put(d1, t, Count(d1, t))
  }

  /** #nick makes every listed nick an attendee and changes no line count. */
  lemma {:induction false} TouchAllSpec(d: seq<(string, nat)>, tokens: seq<string>, x: string)
    requires UniqueKeys(d)
    ensures Count(TouchAll(d, tokens), x) == Count(d, x)
    ensures x in tokens && x != "" ==> HasKey(TouchAll(d, tokens), x)
    ensures HasKey(d, x) ==> HasKey(TouchAll(d, tokens), x)
    decreases |tokens|
  {
    if tokens != [] {
      var init := tokens[..|tokens| - 1];
      var t := tokens[|tokens| - 1];
      assert tokens == init + [t];
      TouchAllSpec(d, init, x);
      var d1 := TouchAll(d, init);
      if t != "" {
        CountPut(d1, t, Count(d1, t), x);
        PutOthers(d1, t, Count(d1, t));
        if x != t && HasKey(d1, x) {
          var i := IndexOf(d1, x);
          assert d1[i] in Put(d1, t, Count(d1, t));
        }
      }
    }
  }

  /** The warning #chair and #voters give for a nick not seen in the channel. */
  function Warning(users: Option<set<string>>, t: string, connected: bool, lurk: bool): seq<Output> {
    if users.Some? && t !in users.value
    then [ReplyEvent(connected, lurk, "Warning: '" + t + "' not in channel")]
    else []
  }

  /** What the name loop says: a warning per unknown new nick and, for #chair, the `notice` (the command list) to each. */
  function NameEvents(known: seq<string>, tokens: seq<string>, users: Option<set<string>>,
                      connected: bool, lurk: bool, notice: Option<string>): seq<Output>
    decreases |tokens|
  {
    if tokens == [] then []
    else
      var init := tokens[..|tokens| - 1];
      var t := tokens[|tokens| - 1];
      var prev := NameEvents(known, init, users, connected, lurk, notice);
      if t == "" || t in AddNames(known, init) then prev
      else if notice.Some? then prev + Warning(users, t, connected, lurk) + PrivateEvents(connected, lurk, t, notice.value)
      else prev + Warning(users, t, connected, lurk)
  }

  /** One more token of the name loops of #chair and #voters, unfolded. */
  lemma NamesStep(known: seq<string>, d: seq<(string, nat)>, tokens: seq<string>, i: nat,
                  users: Option<set<string>>, connected: bool, lurk: bool, notice: Option<string>)
    requires UniqueKeys(d) && i < |tokens|
    ensures var t := tokens[i];
      var k := AddNames(known, tokens[..i]);
      var d1 := TouchNew(d, known, tokens[..i]);
      var prev := NameEvents(known, tokens[..i], users, connected, lurk, notice);
      var isNew := t != "" && t !in k;
      AddNames(known, tokens[..i + 1]) == (if isNew then k + [t] else k)
      && TouchNew(d, known, tokens[..i + 1]) == (if isNew then Put(d1, t, Count(d1, t)) else d1)
      && NameEvents(known, tokens[..i + 1], users, connected, lurk, notice)
         == (if !isNew then prev
             else if notice.Some? then prev + Warning(users, t, connected, lurk) + PrivateEvents(connected, lurk, t, notice.value)
             else prev + Warning(users, t, connected, lurk))
  {
    assert tokens[..i + 1][..i] == tokens[..i];
  }

  /** One more token of #nick's loop, unfolded. */
  lemma TouchAllStep(d: seq<(string, nat)>, tokens: seq<string>, i: nat)
    requires UniqueKeys(d) && i < |tokens|
    ensures var d1 := TouchAll(d, tokens[..i]);
      TouchAll(d, tokens[..i + 1]) == (if tokens[i] == "" then d1 else Put(d1, tokens[i], Count(d1, tokens[i])))
  {
    assert tokens[..i + 1][..i] == tokens[..i];
  }

  /** The #voters tokens that reset the list to everyone. */
  predicate EveryoneToken(t: string) { t == "everyone" || t == "everybody" || t == "all" }

  /** The position of the first resetting token, or the number of tokens. */
  function FirstEveryone(tokens: seq<string>): (k: nat)
    ensures k <= |tokens|
    ensures forall i | 0 <= i < k :: !EveryoneToken(tokens[i])
    ensures k < |tokens| ==> EveryoneToken(tokens[k])
    decreases |tokens|
  {
    if tokens == [] then 0
    else if EveryoneToken(tokens[0]) then 0
    else
      var k := FirstEveryone(tokens[1..]);
      assert forall i | 1 <= i < |tokens| :: tokens[i] == tokens[1..][i - 1];
      1 + k
  }

  /**
   * "Current chairs: " / "Current voters: " and the sorted set of the
   * names plus the owner; with no owner Python cannot sort or join None.
   */
  function Roster(title: string, names: seq<string>, owner: Option<string>): (r: Result<string>)
    ensures owner.None? <==> r.Err?
    ensures r.Ok? ==>
      exists l :: (r.value == title + Join(", ", l) && SortedBy(l, StringOrder())
                   && (forall i, j | 0 <= i < j < |l| :: l[i] != l[j])
                   && (forall x :: x in l <==> x in names || x == owner.value))
  {
    if owner.None? then Err(TypeError("sequence item: expected str instance, NoneType found"))
    else
      var l := SortedSet(names + [owner.value]);
      assert forall x :: x in l <==> x in names || x == owner.value by {
        forall x ensures x in names + [owner.value] <==> x in names || x == owner.value { }
      }
      Ok(title + Join(", ", l))
  }

  /** What Config reads from the meeting. */
  function TargetOf(s: MeetingState): Target {
    Target(s.channel, s.network, s.meetingname, s.filename, s.starttime, s.lines)
  }

  function ClockOrNone(t: Option<Time>): string {
    if t.Some? then Strftime("%H:%M:%S", t.value) else "None"
  }

  /** Meeting.replacements: the names the start and end messages may use. */
  function Replacements(s: MeetingState): (r: Result<map<string, string>>)
    ensures r.Ok? ==> r.value.Keys == {"channel", "network", "MeetBotInfoURL", "timeZone",
      "starttime", "endtime", "__version__", "chair", "urlBasename"}
    ensures r.Err? <==> Filename(s.config.files, TargetOf(s), true).Err?
  {
    match Filename(s.config.files, TargetOf(s), true)
    case Err(e) => Err(e)
    case Ok(url) =>
      Ok(map["channel" := s.channel, "network" := s.network,
             "MeetBotInfoURL" := s.config.meetBotInfoURL, "timeZone" := s.config.timeZone,
             "starttime" := ClockOrNone(s.starttime), "endtime" := ClockOrNone(s.endtime),
             "__version__" := "0.3.0", "chair" := PyStr(s.owner), "urlBasename" := url])
  }

  /** A message template formatted with the replacements. */
  function Message(s: MeetingState, template: string): Result<string> {
    match Replacements(s)
    case Err(e) => Err(e)
    case Ok(repl) => PercentFormat(template, repl)
  }

  /** One reply per '\n'-separated line of a message. */
  function ReplyLines(connected: bool, lurk: bool, texts: seq<string>): (r: seq<Output>)
    ensures |r| == |texts|
    ensures forall i | 0 <= i < |texts| :: r[i] == ReplyEvent(connected, lurk, texts[i])
    decreases |texts|
  {
    if texts == [] then []
    else ReplyLines(connected, lurk, texts[..|texts| - 1]) + [ReplyEvent(connected, lurk, texts[|texts| - 1])]
  }

  /** do_private_commands for each nick in turn, each sent the command list `msg`. */
  function CommandLists(connected: bool, lurk: bool, nicks: seq<string>, msg: string): seq<Output>
    decreases |nicks|
  {
    if nicks == [] then []
    else CommandLists(connected, lurk, nicks[..|nicks| - 1], msg)
         + PrivateEvents(connected, lurk, nicks[|nicks| - 1], msg)
  }

  /** The value #meetingtopic stores: none, an empty line, "none" and "unset" clear it. */
  function MeetingTopicValue(line: string): (r: Option<string>)
    ensures r.None? <==> line == "" || Lower(line) == "none" || Lower(line) == "unset"
    ensures r.Some? ==> r.value == line
  {
    if line == "" || Lower(line) == "none" || Lower(line) == "unset" then None else Some(line)
  }

  function WritesOf(run: SaveRun): seq<FileWrite> {
    if run.Ran? then run.writes else []
  }

  function RaisedBy(run: SaveRun): Option<Error> {
    if run.Ran? then run.error else None
  }
}
