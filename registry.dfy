// The plugin's registry of live meetings, as values: the meeting_cache dict
// keyed by (channel, network), the bounded recent_meetings list, and what
// the bot itself says.  MeetBot.doPrivmsg, vote, listmeetings and pingall
// are step functions over that value; the class in plugin.dfy runs them on
// Meeting objects and is proved to follow them.
module Registry {
  import opened Wrappers
  import opened Strings
  import opened Clock
  import opened Dicts
  import opened Grammar
  import opened MeetingSteps
  import opened MeetingHandlers
  import opened Ping

  /** meeting_cache's key: (channel, network). */
  type Key = (string, string)

  /** One entry of recent_meetings: (channel, network, time.ctime()). */
  type Entry = (string, string, string)

  /** What the bot says through the IRC connection on its own behalf. */
  datatype Sent =
    | IrcError(text: string, private: bool)   // irc.error
    | IrcReply(text: string)                  // irc.reply
    | Said(target: string, text: string)      // irc.queueMsg(ircmsgs.privmsg(target, text))

  /** The part of irc.state.channels[channel] the plugin reads; `users` in iteration order. */
  datatype Channel = Channel(users: seq<string>, ops: set<string>, topic: string)

  /**
   * The registry: each cached meeting's state, the cache's keys in
   * insertion order, recent_meetings, what the bot said, and the final
   * states of the meetings the cache has let go.
   */
  datatype Board = Board(meetings: map<Key, MeetingState>, order: seq<Key>, recent: seq<Entry>,
                         sent: seq<Sent>, closed: seq<MeetingState>)

  const RecentLimit: nat := 10

  const StartRefused: string := "Can't start another meeting, one is in progress"
  const ReplayRefused: string := "Can't replay logs while a meeting is in progress"
  const AbortReply: string := "Meeting ended without saving its logs"

  /** What every reachable registry satisfies. */
  ghost predicate Wf(b: Board) {
    |b.recent| <= RecentLimit && Distinct(b.order)
    && (forall k :: k in b.meetings <==> k in b.order)
    && (forall k | k in b.meetings :: Inv(b.meetings[k]))
  }

  function Empty(): (b: Board)
    ensures Wf(b) && b.meetings == map[]
  {
    Board(map[], [], [], [], [])
  }

  // ---------------------------------------------------------------------
  // Which registry command a line is: payload[:n].lower() == '#...'.

  datatype Request = StartRequest | ReplayRequest | EndRequest | AbortRequest | LineRequest

  /** s[:n] */
  function Take(s: string, n: nat): (r: string)
    ensures |r| <= n && |r| <= |s| && r == s[..|r|]
    ensures |s| >= n ==> |r| == n
  {
    if |s| <= n then s else s[..n]
  }

  /** payload[:|word|].lower() == word. */
  predicate Prefixed(payload: string, word: string) {
    Lower(Take(payload, |word|)) == word
  }

  function RequestOf(payload: string): (r: Request)
    ensures r == ReplayRequest ==> |payload| >= 7
  {
    if Prefixed(payload, "#startmeeting") then StartRequest
    else if Prefixed(payload, "#replay") then ReplayRequest
    else if Prefixed(payload, "#endmeeting") then EndRequest
    else if Prefixed(payload, "#abortmeeting") then AbortRequest
    else LineRequest
  }

  /** Each registry command is recognised by its case-insensitive prefix, the earlier ones first. */
  lemma RequestOfSpec(payload: string)
    ensures RequestOf(payload) == StartRequest <==> StartsWith(Lower(payload), "#startmeeting")
    ensures RequestOf(payload) == ReplayRequest
      <==> !StartsWith(Lower(payload), "#startmeeting") && StartsWith(Lower(payload), "#replay")
    ensures RequestOf(payload) == EndRequest ==> StartsWith(Lower(payload), "#endmeeting")
    ensures RequestOf(payload) == AbortRequest ==> StartsWith(Lower(payload), "#abortmeeting")
    ensures RequestOf(payload) == LineRequest <==> (!StartsWith(Lower(payload), "#startmeeting")
      && !StartsWith(Lower(payload), "#replay") && !StartsWith(Lower(payload), "#endmeeting")
      && !StartsWith(Lower(payload), "#abortmeeting"))
  {
    PrefixedLower(payload, "#startmeeting");
    PrefixedLower(payload, "#replay");
    PrefixedLower(payload, "#endmeeting");
    PrefixedLower(payload, "#abortmeeting");
  }

  /** The prefix test is the case-insensitive "starts with". */
  lemma PrefixedLower(payload: string, word: string)
    ensures Prefixed(payload, word) <==> StartsWith(Lower(payload), word)
  {
    var t := Take(payload, |word|);
    assert |Lower(t)| == |t|;
    if |payload| >= |word| {
      assert Lower(payload)[..|word|] == Lower(t);
    }
  }

  // ---------------------------------------------------------------------
  // The meeting_cache dict and recent_meetings.

  /** The keys other than k, in their order. */
  function Without(order: seq<Key>, k: Key): (r: seq<Key>)
    ensures forall x :: x in r <==> x in order && x != k
    ensures Distinct(order) ==> Distinct(r)
  {
    if order == [] then []
    else
      var rest := Without(order[..|order| - 1], k);
      var last := order[|order| - 1];
      assert forall x :: x in order <==> x in order[..|order| - 1] || x == last by {
        assert order == order[..|order| - 1] + [last];
      }
      assert Distinct(order) ==> last !in order[..|order| - 1];
      if last == k then rest else rest + [last]
  }

  /** recent_meetings.append(entry); del recent_meetings[0] when there are more than ten. */
  function Remembered(recent: seq<Entry>, entry: Entry): seq<Entry> {
    var r := recent + [entry];
    if |r| > RecentLimit then r[1..] else r
  }

  /**
   * recent_meetings keeps the newest entry and what came before it, minus
   * the oldest once the list would pass ten: never more than ten entries.
   */
  lemma RememberedSpec(recent: seq<Entry>, entry: Entry)
    requires |recent| <= RecentLimit
    ensures var r := Remembered(recent, entry);
      |r| <= RecentLimit && r[|r| - 1] == entry
      && (|recent| < RecentLimit ==> r == recent + [entry])
      && (|recent| == RecentLimit ==> r == recent[1..] + [entry])
  {
  }

  /** The list recent_meetings holds after entries are remembered one by one from empty. */
  function RememberAll(entries: seq<Entry>): (r: seq<Entry>)
    decreases |entries|
  {
    if entries == [] then []
    else Remembered(RememberAll(entries[..|entries| - 1]), entries[|entries| - 1])
  }

  /** recent_meetings is always the last ten meetings started, oldest first. */
  lemma {:induction false} RememberAllWindow(entries: seq<Entry>)
    ensures |entries| <= RecentLimit ==> RememberAll(entries) == entries
    ensures |entries| > RecentLimit ==> RememberAll(entries) == entries[|entries| - RecentLimit..]
    decreases |entries|
  {
    if entries != [] {
      var init := entries[..|entries| - 1];
      var last := entries[|entries| - 1];
      RememberAllWindow(init);
      assert entries == init + [last];
      if |init| > RecentLimit {
        assert init[|init| - RecentLimit..][1..] + [last] == entries[|entries| - RecentLimit..];
      } else if |init| == RecentLimit {
        assert init[1..] + [last] == entries[|entries| - RecentLimit..];
      }
    }
  }

  /** meeting_cache[key] = m and recent_meetings.append((channel, network, ctime)). */
  function Opened(b: Board, key: Key, m: MeetingState, ctime: string): (r: Board)
    requires Wf(b) && key !in b.meetings && Inv(m)
    ensures Wf(r)
    ensures r.meetings == b.meetings[key := m] && r.sent == b.sent && r.closed == b.closed
    ensures r.recent == Remembered(b.recent, (key.0, key.1, ctime)) && r.meetings - {key} == b.meetings
  {
    assert b.meetings[key := m] - {key} == b.meetings;
    b.(meetings := b.meetings[key := m], order := b.order + [key],
       recent := Remembered(b.recent, (key.0, key.1, ctime)))
  }

  /** del meeting_cache[key]: the meeting's last state joins the closed ones. */
  function Dropped(b: Board, key: Key): (r: Board)
    requires Wf(b) && key in b.meetings
    ensures Wf(r)
    ensures r.meetings == b.meetings - {key} && r.recent == b.recent && r.sent == b.sent
    ensures r.closed == b.closed + [b.meetings[key]]
  {
    b.(meetings := b.meetings - {key}, order := Without(b.order, key),
       closed := b.closed + [b.meetings[key]])
  }

  // ---------------------------------------------------------------------
  // doPrivmsg.

  /**
   * The plugin's own isChair: owner, listed chair, or op in the channel.
   * Reading the channel's ops raises KeyError when the bot does not know
   * the channel.
   */
  function ChairCheck(m: MeetingState, nick: string, channel: string, chan: Option<Channel>): (r: Result<bool>)
    ensures r == Ok(true) <==> Some(nick) == m.owner || nick in m.chairs || (chan.Some? && nick in chan.value.ops)
    ensures r.Err? <==> !(Some(nick) == m.owner || nick in m.chairs) && chan.None?
  {
    if Some(nick) == m.owner || nick in m.chairs then Ok(true)
    else if chan.None? then Err(KeyError(channel))
    else Ok(nick in chan.value.ops)
  }

  /**
   * What a cached meeting does with a line: Meeting.addline(nick, line,
   * isop), the meeting's state and the exception it raised after it.  The
   * registry's laws hold for any such step that keeps the meeting's
   * invariant; AddLineAt is the one the bot runs.
   */
  type Adder = (MeetingState, string, string, bool) -> Stepped

  ghost predicate KeepsInv(add: Adder) {
    forall s, nick, line, isop | Inv(s) :: Inv(add(s, nick, line, isop).state)
  }

  /** Meeting.addline(nick, line, isop) with time_ left to the clock, which reads `now`. */
  function AddLineAt(now: Time): (add: Adder)
    ensures KeepsInv(add)
  {
    (s: MeetingState, nick: string, line: string, isop: bool) =>
      if Inv(s) then LineStep(s, nick, line, isop, now, now) else Stepped(s, None)
  }

  /** `add` is addline at `now` on every well-formed meeting. */
  ghost predicate AddsLine(add: Adder, now: Time) {
    forall s, nick, line, isop {:trigger LineStep(s, nick, line, isop, now, now)}
      :: Inv(s) ==> add(s, nick, line, isop) == LineStep(s, nick, line, isop, now, now)
  }

  lemma AddLineAtAdds(now: Time)
    ensures AddsLine(AddLineAt(now), now)
  {
  }

  /** Every meeting of a key other than `key` is still cached, unchanged. */
  ghost predicate Kept(b: Board, r: Board, key: Key) {
    forall k | k in b.meetings && k != key :: k in r.meetings && r.meetings[k] == b.meetings[k]
  }

  /** The users of the channel as the set the meeting's channelNicks callback returns. */
  function UserSet(users: seq<string>): set<string> {
    set u | u in users
  }

  /** The cached meeting under `key` replaced by its new state. */
  function Stored(b: Board, key: Key, m: MeetingState): (r: Board)
    requires Wf(b) && key in b.meetings && Inv(m)
    ensures Wf(r) && r.order == b.order && r.recent == b.recent && r.sent == b.sent && r.closed == b.closed
    ensures r.meetings.Keys == b.meetings.Keys && r.meetings[key] == m && r.meetings - {key} == b.meetings - {key}
  {
    var r := b.(meetings := b.meetings[key := m]);
    assert r.meetings - {key} == b.meetings - {key};
    r
  }

  /**
   * The tail of doPrivmsg: nothing for a missing or ended meeting;
   * otherwise addline with the op flag read from the channel, and the key
   * removed when the meeting ended without an exception.
   */
  function Feed(b: Board, add: Adder, key: Key, nick: string, payload: string, chan: Option<Channel>): (r: (Board, Option<Error>))
    requires Wf(b) && KeepsInv(add)
    ensures Wf(r.0) && r.0.recent == b.recent && r.0.sent == b.sent
    ensures Kept(b, r.0, key) && r.0.meetings.Keys <= b.meetings.Keys
    ensures key !in b.meetings || b.meetings[key].meetingIsOver ==> r == (b, None)
    ensures r.1.None? && key in r.0.meetings ==> !r.0.meetings[key].meetingIsOver || r.0.meetings[key] == b.meetings[key]
    ensures NoneOver(b) && r.1.None? ==> NoneOver(r.0)
  {
    if key !in b.meetings || b.meetings[key].meetingIsOver then (b, None)
    else if chan.None? then (b, Some(KeyError(key.0)))
    else
      var st := add(b.meetings[key], nick, payload, nick in chan.value.ops);
      var b1 := Stored(b, key, st.state);
      if st.raised.None? && st.state.meetingIsOver then (Dropped(b1, key), None)
      else (b1, st.raised)
  }

  /** `m` cached and remembered under the free `key`, then fed the line. */
  function Begun(b: Board, add: Adder, key: Key, nick: string, payload: string, chan: Channel, m: MeetingState,
                 ctime: string): (r: (Board, Option<Error>))
    requires Wf(b) && KeepsInv(add) && key !in b.meetings && Inv(m)
    ensures Wf(r.0)
  {
    Feed(Opened(b, key, m, ctime), add, key, nick, payload, Some(chan))
  }

  /** #startmeeting for a key with no meeting: a new owned meeting, then its first line. */
  function Started(b: Board, add: Adder, cfg: MeetingConfig, nick: string, key: Key, payload: string,
                   chan: Channel, ctime: string): (r: (Board, Option<Error>))
    requires Wf(b) && KeepsInv(add) && key !in b.meetings
    ensures Wf(r.0) && Kept(b, r.0, key) && r.0.sent == b.sent
    ensures r.0.recent == Remembered(b.recent, (key.0, key.1, ctime))
    ensures NoneOver(b) && r.1.None? ==> NoneOver(r.0)
  {
    var m := Fresh(cfg, key.0, Some(nick), chan.topic, "", true, true, Some(UserSet(chan.users)), key.1);
    Begun(b, add, key, nick, payload, chan, m, ctime)
  }

  /**
   * #replay for a key with no meeting: an owner-less meeting without
   * callbacks is cached and remembered; then payload[7:].strip().split()[0]
   * raises IndexError on an empty argument, and M.replay, which Meeting
   * does not define, raises AttributeError otherwise.
   */
  function Replayed(b: Board, cfg: MeetingConfig, key: Key, payload: string, chan: Channel, ctime: string): (r: (Board, Option<Error>))
    requires Wf(b) && key !in b.meetings && |payload| >= 7
    ensures Wf(r.0) && Kept(b, r.0, key) && r.0.sent == b.sent && key in r.0.meetings
    ensures r.0.meetings[key].owner.None? && r.0.meetings[key].lines == []
    ensures r.1 == Some(IndexError) || r.1 == Some(AttributeError("replay"))
  {
    var m := Fresh(cfg, key.0, None, chan.topic, "", true, false, None, key.1);
    var b1 := Opened(b, key, m, ctime);
    if SplitWhitespace(StripSpace(payload[7..])) == [] then (b1, Some(IndexError))
    else (b1, Some(AttributeError("replay")))
  }

  /** #abortmeeting's change to a running meeting: the old topic back, the end time, over. */
  function AbortedState(m: MeetingState, now: Time): (r: MeetingState)
    requires Inv(m)
    ensures Inv(r) && r.meetingIsOver && r.lines == m.lines && r.minutes == m.minutes
    ensures r.written == m.written && r.outbox == m.outbox + [TopicEventOf(m.connected, m.lurk, m.oldtopic)]
  {
    var m1 := m.(outbox := m.outbox + [TopicEventOf(m.connected, m.lurk, m.oldtopic)]);
    m1.(status := m1.status.(endtime := Some(now), meetingIsOver := true))
  }

  /** #abortmeeting by a chair: the meeting ends unsaved and leaves the cache. */
  function Aborted(b: Board, key: Key, now: Time): (r: Board)
    requires Wf(b) && key in b.meetings
    ensures Wf(r) && r.meetings == b.meetings - {key} && r.recent == b.recent && Untouched(b, r)
    ensures r.sent == b.sent + [IrcReply(AbortReply)]
    ensures |r.closed| == |b.closed| + 1 && r.closed[..|b.closed|] == b.closed
    ensures var last := r.closed[|b.closed|]; var m := b.meetings[key];
      last.meetingIsOver && last.lines == m.lines && last.minutes == m.minutes && last.written == m.written
      && (m.meetingIsOver ==> last == m)
  {
    var m := b.meetings[key];
    var m1 := if !m.meetingIsOver then AbortedState(m, now) else m;
    var b1 := Dropped(b.(meetings := b.meetings[key := m1]), key);
    b1.(sent := b1.sent + [IrcReply(AbortReply)])
  }

  /** doPrivmsg on #startmeeting: refused while the key has a meeting, else a new one fed the line. */
  function Starting(b: Board, add: Adder, cfg: MeetingConfig, nick: string, key: Key, payload: string,
                    chan: Option<Channel>, ctime: string): (r: (Board, Option<Error>))
    requires Wf(b) && KeepsInv(add)
    ensures Wf(r.0) && Kept(b, r.0, key)
  {
    if key in b.meetings then (b.(sent := b.sent + [IrcError(StartRefused, true)]), None)
    else if chan.None? then (b, Some(KeyError(key.0)))
    else Started(b, add, cfg, nick, key, payload, chan.value, ctime)
  }

  /** doPrivmsg on #replay: refused while the key has a meeting, else a replay meeting is set up. */
  function Replaying(b: Board, cfg: MeetingConfig, key: Key, payload: string, chan: Option<Channel>, ctime: string)
    : (r: (Board, Option<Error>))
    requires Wf(b) && |payload| >= 7
    ensures Wf(r.0) && Kept(b, r.0, key)
  {
    if key in b.meetings then (b.(sent := b.sent + [IrcError(ReplayRefused, true)]), None)
    else if chan.None? then (b, Some(KeyError(key.0)))
    else Replayed(b, cfg, key, payload, chan.value, ctime)
  }

  /**
   * doPrivmsg on #endmeeting: for an ended meeting that is still cached, a
   * chair's command calls M.endmeeting, which Meeting does not define
   * (AttributeError); otherwise the line goes to addline.
   */
  function Ending(b: Board, add: Adder, nick: string, key: Key, payload: string, chan: Option<Channel>)
    : (r: (Board, Option<Error>))
    requires Wf(b) && KeepsInv(add)
    ensures Wf(r.0) && Kept(b, r.0, key)
  {
    if key in b.meetings && b.meetings[key].meetingIsOver then
      match ChairCheck(b.meetings[key], nick, key.0, chan)
      case Err(e) => (b, Some(e))
      case Ok(chair) => if chair then (b, Some(AttributeError("endmeeting"))) else (b, None)
    else Feed(b, add, key, nick, payload, chan)
  }

  /** doPrivmsg on #abortmeeting: a chair's command drops the meeting unsaved; otherwise addline. */
  function Aborting(b: Board, add: Adder, nick: string, key: Key, payload: string, chan: Option<Channel>, now: Time)
    : (r: (Board, Option<Error>))
    requires Wf(b) && KeepsInv(add)
    ensures Wf(r.0) && Kept(b, r.0, key)
  {
    if key in b.meetings then
      match ChairCheck(b.meetings[key], nick, key.0, chan)
      case Err(e) => (b, Some(e))
      case Ok(chair) => if chair then (Aborted(b, key, now), None) else Feed(b, add, key, nick, payload, chan)
    else Feed(b, add, key, nick, payload, chan)
  }

  /**
   * MeetBot.doPrivmsg for a line `raw` from `nick` in `channel` on
   * `network`, with the meeting's creation call fixed (see
   * PrivmsgAsWritten).  `chan` is the bot's view of the channel (None if
   * it does not know it), `ctime` and `now` the clock, `cfg` the bot's
   * configuration.
   */
  function Privmsg(b: Board, add: Adder, cfg: MeetingConfig, nick: string, channel: string, network: string,
                   raw: string, chan: Option<Channel>, ctime: string, now: Time): (r: (Board, Option<Error>))
    requires Wf(b) && KeepsInv(add)
    ensures Wf(r.0) && Kept(b, r.0, (channel, network))
  {
    var payload := StripSpace(raw);
    var key := (channel, network);
    match RequestOf(payload)
    case StartRequest => Starting(b, add, cfg, nick, key, payload, chan, ctime)
    case ReplayRequest => Replaying(b, cfg, key, payload, chan, ctime)
    case EndRequest => Ending(b, add, nick, key, payload, chan)
    case AbortRequest => Aborting(b, add, nick, key, payload, chan, now)
    case LineRequest => Feed(b, add, key, nick, payload, chan)
  }

  // ---------------------------------------------------------------------
  // The meeting's creation call, as written: botIsOp= is not a parameter.

  /** The keyword names that occur in the calls to meeting.Meeting. */
  datatype Keyword =
    | KwChannel | KwOwner | KwOldtopic | KwFilename | KwWriteRawLog | KwSetTopic | KwSendReply
    | KwSendPrivateReply | KwGetRegistryValue | KwSafeMode | KwChannelNicks | KwExtraConfig
    | KwNetwork | KwBotIsOp

  function KeywordName(k: Keyword): string {
    match k
    case KwChannel => "channel"
    case KwOwner => "owner"
    case KwOldtopic => "oldtopic"
    case KwFilename => "filename"
    case KwWriteRawLog => "writeRawLog"
    case KwSetTopic => "setTopic"
    case KwSendReply => "sendReply"
    case KwSendPrivateReply => "sendPrivateReply"
    case KwGetRegistryValue => "getRegistryValue"
    case KwSafeMode => "safeMode"
    case KwChannelNicks => "channelNicks"
    case KwExtraConfig => "extraConfig"
    case KwNetwork => "network"
    case KwBotIsOp => "botIsOp"
  }

  /** The parameters Meeting.__init__ declares. */
  const MeetingParameters: set<Keyword> := {KwChannel, KwOwner, KwOldtopic, KwFilename, KwWriteRawLog,
    KwSetTopic, KwSendReply, KwSendPrivateReply, KwGetRegistryValue, KwSafeMode, KwChannelNicks,
    KwExtraConfig, KwNetwork}

  /** The keywords doPrivmsg passes to meeting.Meeting on #startmeeting. */
  const StartKeywords: seq<Keyword> := [KwChannel, KwNetwork, KwOwner, KwBotIsOp, KwOldtopic, KwWriteRawLog,
    KwSafeMode, KwGetRegistryValue, KwSetTopic, KwSendReply, KwSendPrivateReply, KwChannelNicks]

  /** The keywords doPrivmsg passes to meeting.Meeting on #replay. */
  const ReplayKeywords: seq<Keyword> := [KwChannel, KwNetwork, KwOwner, KwBotIsOp, KwOldtopic, KwWriteRawLog,
    KwSafeMode, KwGetRegistryValue]

  function Unexpected(k: Keyword): Error {
    TypeError("__init__() got an unexpected keyword argument '" + KeywordName(k) + "'")
  }

  /** Python's check of keyword arguments: the first one the callee does not declare raises TypeError. */
  function BindKeywords(params: set<Keyword>, given: seq<Keyword>): (r: Option<Error>)
    ensures r.None? <==> forall k | k in given :: k in params
  {
    if given == [] then None
    else if given[0] !in params then Some(Unexpected(given[0]))
    else
      assert forall k | k in given :: k == given[0] || k in given[1..] by {
        assert given == [given[0]] + given[1..];
      }
      BindKeywords(params, given[1..])
  }

  /** The first undeclared keyword is the one reported. */
  lemma {:induction false} FirstUnexpected(params: set<Keyword>, before: seq<Keyword>, k: Keyword, after: seq<Keyword>)
    requires forall x | x in before :: x in params
    requires k !in params
    ensures BindKeywords(params, before + [k] + after) == Some(Unexpected(k))
  {
    var given := before + [k] + after;
    if before != [] {
      FirstUnexpected(params, before[1..], k, after);
      assert given[0] == before[0] && given[1..] == before[1..] + [k] + after;
    } else {
      assert given[0] == k;
    }
  }

  /** The #startmeeting call raises TypeError at botIsOp=. */
  lemma StartCallRaises()
    ensures BindKeywords(MeetingParameters, StartKeywords) == Some(Unexpected(KwBotIsOp))
  {
    assert StartKeywords == [KwChannel, KwNetwork, KwOwner] + [KwBotIsOp] + StartKeywords[4..];
    FirstUnexpected(MeetingParameters, [KwChannel, KwNetwork, KwOwner], KwBotIsOp, StartKeywords[4..]);
  }

  /** The #replay call raises TypeError at botIsOp=. */
  lemma ReplayCallRaises()
    ensures BindKeywords(MeetingParameters, ReplayKeywords) == Some(Unexpected(KwBotIsOp))
  {
    assert ReplayKeywords == [KwChannel, KwNetwork, KwOwner] + [KwBotIsOp] + ReplayKeywords[4..];
    FirstUnexpected(MeetingParameters, [KwChannel, KwNetwork, KwOwner], KwBotIsOp, ReplayKeywords[4..]);
  }

  /** Without botIsOp= both calls bind: the keywords Privmsg relies on are all declared. */
  lemma CallsFixed()
    ensures BindKeywords(MeetingParameters, Without1(StartKeywords, KwBotIsOp)) == None
    ensures BindKeywords(MeetingParameters, Without1(ReplayKeywords, KwBotIsOp)) == None
  {
    forall k: Keyword | k != KwBotIsOp ensures k in MeetingParameters {
      Declared(k);
    }
  }

  /** botIsOp is the one keyword of the two calls that Meeting.__init__ does not declare. */
  lemma Declared(k: Keyword)
    ensures k in MeetingParameters <==> k != KwBotIsOp
  {
    match k
    case KwChannel =>
    case KwOwner =>
    case KwOldtopic =>
    case KwFilename =>
    case KwWriteRawLog =>
    case KwSetTopic =>
    case KwSendReply =>
    case KwSendPrivateReply =>
    case KwGetRegistryValue =>
    case KwSafeMode =>
    case KwChannelNicks =>
    case KwExtraConfig =>
    case KwNetwork =>
    case KwBotIsOp =>
  }

  /** The keywords other than k. */
  function Without1(given: seq<Keyword>, k: Keyword): (r: seq<Keyword>)
    ensures forall x :: x in r <==> x in given && x != k
  {
    if given == [] then []
    else
      assert forall x :: x in given <==> x == given[0] || x in given[1..] by {
        assert given == [given[0]] + given[1..];
      }
      if given[0] == k then Without1(given[1..], k) else [given[0]] + Without1(given[1..], k)
  }

  /**
   * doPrivmsg as written: on #startmeeting or #replay for a key without a
   * meeting the call to meeting.Meeting raises, after its arguments (the
   * channel lookup among them) are evaluated; every other line goes on
   * as in Privmsg.
   */
  function PrivmsgAsWritten(b: Board, add: Adder, cfg: MeetingConfig, nick: string, channel: string, network: string,
                            raw: string, chan: Option<Channel>, ctime: string, now: Time): (r: (Board, Option<Error>))
    requires Wf(b) && KeepsInv(add)
    ensures Wf(r.0)
  {
    var payload := StripSpace(raw);
    var key := (channel, network);
    var req := RequestOf(payload);
    if (req == StartRequest || req == ReplayRequest) && key !in b.meetings then
      if chan.None? then (b, Some(KeyError(channel)))
      else (b, BindKeywords(MeetingParameters, if req == StartRequest then StartKeywords else ReplayKeywords))
    else Privmsg(b, add, cfg, nick, channel, network, raw, chan, ctime, now)
  }

  /** As written, no meeting can ever be started: the registry is left as it was and TypeError is raised. */
  lemma StartAsWrittenRaises(b: Board, add: Adder, cfg: MeetingConfig, nick: string, channel: string, network: string, raw: string,
                             chan: Channel, ctime: string, now: Time)
    requires Wf(b) && KeepsInv(add) && (channel, network) !in b.meetings
    requires RequestOf(StripSpace(raw)) == StartRequest || RequestOf(StripSpace(raw)) == ReplayRequest
    ensures PrivmsgAsWritten(b, add, cfg, nick, channel, network, raw, Some(chan), ctime, now)
      == (b, Some(Unexpected(KwBotIsOp)))
  {
    StartCallRaises();
    ReplayCallRaises();
  }

  // ---------------------------------------------------------------------
  // What doPrivmsg promises about the registry.

  /** #startmeeting while the key has a meeting: an error in private, and nothing else changes. */
  lemma StartRefusedKeeps(b: Board, add: Adder, cfg: MeetingConfig, nick: string, channel: string, network: string, raw: string,
                          chan: Option<Channel>, ctime: string, now: Time)
    requires Wf(b) && KeepsInv(add) && (channel, network) in b.meetings
    requires RequestOf(StripSpace(raw)) == StartRequest
    ensures Privmsg(b, add, cfg, nick, channel, network, raw, chan, ctime, now)
      == (b.(sent := b.sent + [IrcError(StartRefused, true)]), None)
  {
  }

  /**
   * #startmeeting for a free key: the key and the start are recorded, the
   * new meeting holds the command line, and it stays cached unless that
   * line ended it; no other meeting changes.
   */
  lemma StartRegisters(b: Board, add: Adder, cfg: MeetingConfig, nick: string, channel: string, network: string, raw: string,
                       chan: Channel, ctime: string, now: Time)
    requires Wf(b) && KeepsInv(add) && (channel, network) !in b.meetings
    requires RequestOf(StripSpace(raw)) == StartRequest
    ensures var r := Privmsg(b, add, cfg, nick, channel, network, raw, Some(chan), ctime, now);
      var key := (channel, network);
      var st := add(Fresh(cfg, channel, Some(nick), chan.topic, "", true, true, Some(UserSet(chan.users)), network),
                    nick, StripSpace(raw), nick in chan.ops);
      r.1 == st.raised && r.0.recent == Remembered(b.recent, (channel, network, ctime))
      && r.0.meetings - {key} == b.meetings && r.0.sent == b.sent
      && (key in r.0.meetings <==> !(st.raised.None? && st.state.meetingIsOver))
      && (key in r.0.meetings ==> r.0.meetings[key] == st.state)
  {
    var key := (channel, network);
    assert Privmsg(b, add, cfg, nick, channel, network, raw, Some(chan), ctime, now)
      == Started(b, add, cfg, nick, key, StripSpace(raw), chan, ctime);
    StartedRegisters(b, add, cfg, nick, key, StripSpace(raw), chan, ctime);
  }

  /** Started on a free key, in terms of the first line's addline. */
  lemma StartedRegisters(b: Board, add: Adder, cfg: MeetingConfig, nick: string, key: Key, payload: string,
                         chan: Channel, ctime: string)
    requires Wf(b) && KeepsInv(add) && key !in b.meetings
    ensures var r := Started(b, add, cfg, nick, key, payload, chan, ctime);
      var st := add(Fresh(cfg, key.0, Some(nick), chan.topic, "", true, true, Some(UserSet(chan.users)), key.1),
                    nick, payload, nick in chan.ops);
      r.1 == st.raised && r.0.meetings - {key} == b.meetings
      && (key in r.0.meetings <==> !(st.raised.None? && st.state.meetingIsOver))
      && (key in r.0.meetings ==> r.0.meetings[key] == st.state)
  {
    var m := Fresh(cfg, key.0, Some(nick), chan.topic, "", true, true, Some(UserSet(chan.users)), key.1);
    FeedRunning(Opened(b, key, m, ctime), add, key, nick, payload, chan);
  }

  /** Feed on a running meeting is its addline; the key goes once that ends the meeting without an exception. */
  lemma FeedRunning(b: Board, add: Adder, key: Key, nick: string, payload: string, chan: Channel)
    requires Wf(b) && KeepsInv(add) && key in b.meetings && !b.meetings[key].meetingIsOver
    ensures var r := Feed(b, add, key, nick, payload, Some(chan));
      var st := add(b.meetings[key], nick, payload, nick in chan.ops);
      r.1 == st.raised && r.0.meetings - {key} == b.meetings - {key}
      && (key in r.0.meetings <==> !(st.raised.None? && st.state.meetingIsOver))
      && (key in r.0.meetings ==> r.0.meetings[key] == st.state)
      && (key !in r.0.meetings ==> r.0.closed == b.closed + [st.state])
  {
    var st := add(b.meetings[key], nick, payload, nick in chan.ops);
    var b1 := Stored(b, key, st.state);
    var r := Feed(b, add, key, nick, payload, Some(chan));
    if st.raised.None? && st.state.meetingIsOver {
      assert r == (Dropped(b1, key), None);
    } else {
      assert r == (b1, st.raised);
    }
  }

  /**
   * #abortmeeting by a chair: the meeting leaves the cache marked over,
   * with its transcript, items and written files as they were (nothing is
   * saved), and the bot says so.
   */
  lemma AbortDrops(b: Board, add: Adder, cfg: MeetingConfig, nick: string, channel: string, network: string, raw: string,
                   chan: Option<Channel>, ctime: string, now: Time)
    requires Wf(b) && KeepsInv(add) && (channel, network) in b.meetings
    requires RequestOf(StripSpace(raw)) == AbortRequest
    requires ChairCheck(b.meetings[(channel, network)], nick, channel, chan) == Ok(true)
    ensures var r := Privmsg(b, add, cfg, nick, channel, network, raw, chan, ctime, now);
      var m := b.meetings[(channel, network)];
      r.1 == None && r.0.meetings == b.meetings - {(channel, network)}
      && r.0.sent == b.sent + [IrcReply(AbortReply)] && r.0.recent == b.recent
      && |r.0.closed| == |b.closed| + 1 && r.0.closed[..|b.closed|] == b.closed
      && var last := r.0.closed[|b.closed|];
         last.meetingIsOver && last.lines == m.lines && last.minutes == m.minutes && last.written == m.written
  {
    var r := Privmsg(b, add, cfg, nick, channel, network, raw, chan, ctime, now);
    assert r.0.closed[..|b.closed|] == b.closed;
  }

  /** The cache holds no meeting it did not hold before, and those it holds are as they were. */
  ghost predicate Untouched(b: Board, r: Board) {
    forall k | k in r.meetings :: k in b.meetings && r.meetings[k] == b.meetings[k]
  }

  /** No cached meeting is over. */
  ghost predicate NoneOver(b: Board) {
    forall k | k in b.meetings :: !b.meetings[k].meetingIsOver
  }

  /**
   * A meeting leaves the cache as soon as it is over: a step that raises
   * nothing leaves no ended meeting behind.
   */
  lemma OverLeavesCache(b: Board, add: Adder, cfg: MeetingConfig, nick: string, channel: string, network: string, raw: string,
                        chan: Option<Channel>, ctime: string, now: Time)
    requires Wf(b) && KeepsInv(add) && NoneOver(b)
    ensures var r := Privmsg(b, add, cfg, nick, channel, network, raw, chan, ctime, now);
      r.1.None? ==> NoneOver(r.0)
  {
    var key := (channel, network);
    var payload := StripSpace(raw);
    var r := Privmsg(b, add, cfg, nick, channel, network, raw, chan, ctime, now);
    assert Kept(b, r.0, key);
    if r.1.None? {
      var req := RequestOf(payload);
      if req == StartRequest && key !in b.meetings && chan.Some? {
        assert r == Started(b, add, cfg, nick, key, payload, chan.value, ctime);
      } else if req == AbortRequest && key in b.meetings && ChairCheck(b.meetings[key], nick, channel, chan) == Ok(true) {
        assert r.0 == Aborted(b, key, now);
      } else if req == StartRequest || req == ReplayRequest {
        assert r.0.meetings == b.meetings;
      } else {
        assert r == Feed(b, add, key, nick, payload, chan);
      }
    }
  }

  /**
   * A line for a key without a meeting, or with an ended one, reaches no
   * transcript: the cache keeps the meetings it had, unchanged, save that
   * an abort may let the ended one go as it was.
   */
  lemma IdleLineIgnored(b: Board, add: Adder, cfg: MeetingConfig, nick: string, channel: string, network: string, raw: string,
                        chan: Option<Channel>, ctime: string, now: Time)
    requires Wf(b) && KeepsInv(add)
    requires RequestOf(StripSpace(raw)) != StartRequest && RequestOf(StripSpace(raw)) != ReplayRequest
    requires (channel, network) !in b.meetings || b.meetings[(channel, network)].meetingIsOver
    ensures var r := Privmsg(b, add, cfg, nick, channel, network, raw, chan, ctime, now);
      Untouched(b, r.0) && (r.0.closed == b.closed || r.0.closed == b.closed + [b.meetings[(channel, network)]])
  {
    var key := (channel, network);
    var payload := StripSpace(raw);
    var r := Privmsg(b, add, cfg, nick, channel, network, raw, chan, ctime, now);
    if key !in b.meetings {
      assert r == Feed(b, add, key, nick, payload, chan);
    } else if RequestOf(payload) == AbortRequest && ChairCheck(b.meetings[key], nick, channel, chan) == Ok(true) {
      assert r.0 == Aborted(b, key, now);
    } else {
      assert r.0 == b;
    }
  }

  /** A line for a running meeting is that meeting's addline, and the meeting leaves the cache if the line ended it. */
  lemma RunningLineFed(b: Board, add: Adder, cfg: MeetingConfig, nick: string, channel: string, network: string, raw: string,
                       chan: Channel, ctime: string, now: Time)
    requires Wf(b) && KeepsInv(add) && (channel, network) in b.meetings && !b.meetings[(channel, network)].meetingIsOver
    requires RequestOf(StripSpace(raw)) == LineRequest || RequestOf(StripSpace(raw)) == EndRequest
    ensures var r := Privmsg(b, add, cfg, nick, channel, network, raw, Some(chan), ctime, now);
      var key := (channel, network);
      var st := add(b.meetings[key], nick, StripSpace(raw), nick in chan.ops);
      r.1 == st.raised
      && (key in r.0.meetings <==> !(st.raised.None? && st.state.meetingIsOver))
      && (key in r.0.meetings ==> r.0.meetings[key] == st.state)
      && (key !in r.0.meetings ==> r.0.closed == b.closed + [st.state])
  {
    FeedRunning(b, add, (channel, network), nick, StripSpace(raw), chan);
  }

  // ---------------------------------------------------------------------
  // vote: a private vote forwarded to the meetings it names.

  const ReceivedPrefix: string := "Received for vote: "

  /** payload.strip()[5:], dropping "vote ". */
  function VoteText(raw: string): (r: string)
    ensures |r| == if |StripSpace(raw)| <= 5 then 0 else |StripSpace(raw)| - 5
  {
    var p := StripSpace(raw);
    if |p| <= 5 then "" else p[5..]
  }

  /** The vote names the meeting of `key` if it ends with the key's channel. */
  predicate Names(payload: string, key: Key) {
    EndsWith(payload, key.0)
  }

  /** voteMeeting.doCastVote(nick, payload, time_, private=True) and the receipt. */
  function CastOne(b: Board, key: Key, nick: string, payload: string): (r: Board)
    requires Wf(b) && key in b.meetings
    ensures Wf(r) && r.meetings.Keys == b.meetings.Keys && r.order == b.order
  {
    var m := b.meetings[key];
    b.(meetings := b.meetings[key := CastStep(m, nick, payload, true)],
       sent := b.sent + [IrcReply(ReceivedPrefix + m.activeVote)])
  }

  /** The loop over list(meeting_cache.keys()), up to the keys given. */
  function CastAll(b: Board, keys: seq<Key>, nick: string, payload: string): (r: Board)
    requires Wf(b) && forall k | k in keys :: k in b.meetings
    ensures Wf(r) && r.meetings.Keys == b.meetings.Keys && r.order == b.order
    decreases |keys|
  {
    if keys == [] then b
    else
      var b1 := CastAll(b, keys[..|keys| - 1], nick, payload);
      var k := keys[|keys| - 1];
      if Names(payload, k) then CastOne(b1, k, nick, payload) else b1
  }

  /** One more key of the loop of MeetBot.vote. */
  lemma CastAllNext(b: Board, keys: seq<Key>, i: nat, nick: string, payload: string)
    requires Wf(b) && i < |keys| && forall k | k in keys :: k in b.meetings
    ensures forall k | k in keys[..i] :: k in b.meetings
    ensures var b1 := CastAll(b, keys[..i], nick, payload);
      CastAll(b, keys[..i + 1], nick, payload) == if Names(payload, keys[i]) then CastOne(b1, keys[i], nick, payload) else b1
  {
    assert keys[..i + 1][..i] == keys[..i];
  }

  /**
   * MeetBot.vote for `raw` sent in `channel` (the message's channel; a
   * private message names none that starts with '#').  channel[0] raises
   * IndexError on an empty name.
   */
  function Vote(b: Board, nick: string, channel: string, raw: string): (r: (Board, Option<Error>))
    requires Wf(b)
    ensures Wf(r.0)
  {
    var payload := VoteText(raw);
    if channel == [] then (b, Some(IndexError))
    else if channel[0] != '#' && VoteShaped(payload) then (CastAll(b, b.order, nick, payload), None)
    else (b, None)
  }

  /** The receipts for the keys the vote names, in key order. */
  function Receipts(ms: map<Key, MeetingState>, keys: seq<Key>, payload: string): seq<Sent>
    requires forall k | k in keys :: k in ms
    decreases |keys|
  {
    if keys == [] then []
    else
      var k := keys[|keys| - 1];
      Receipts(ms, keys[..|keys| - 1], payload) + (if Names(payload, k) then [IrcReply(ReceivedPrefix + ms[k].activeVote)] else [])
  }

  /** Over distinct keys, a meeting the vote names gets exactly one private cast; any other is untouched. */
  lemma {:induction false} CastAllAt(b: Board, keys: seq<Key>, nick: string, payload: string, x: Key)
    requires Wf(b) && Distinct(keys) && (forall k | k in keys :: k in b.meetings) && x in b.meetings
    ensures CastAll(b, keys, nick, payload).meetings[x]
      == if x in keys && Names(payload, x) then CastStep(b.meetings[x], nick, payload, true) else b.meetings[x]
    decreases |keys|
  {
    if keys != [] {
      var init := keys[..|keys| - 1];
      var k := keys[|keys| - 1];
      assert keys == init + [k];
      assert Distinct(init) && k !in init;
      CastAllAt(b, init, nick, payload, x);
      if x == k {
        assert x !in init;
      } else {
        assert x in keys <==> x in init;
      }
    }
  }

  /** The casts change neither recent_meetings nor the closed meetings. */
  lemma {:induction false} CastAllKeeps(b: Board, keys: seq<Key>, nick: string, payload: string)
    requires Wf(b) && forall k | k in keys :: k in b.meetings
    ensures CastAll(b, keys, nick, payload).recent == b.recent && CastAll(b, keys, nick, payload).closed == b.closed
    decreases |keys|
  {
    if keys != [] {
      CastAllKeeps(b, keys[..|keys| - 1], nick, payload);
    }
  }

  /** The receipts come in key order, each with the named meeting's open vote. */
  lemma {:induction false} CastAllSent(b: Board, keys: seq<Key>, nick: string, payload: string)
    requires Wf(b) && Distinct(keys) && forall k | k in keys :: k in b.meetings
    ensures CastAll(b, keys, nick, payload).sent == b.sent + Receipts(b.meetings, keys, payload)
    decreases |keys|
  {
    if keys != [] {
      var init := keys[..|keys| - 1];
      var k := keys[|keys| - 1];
      assert Distinct(init);
      assert k !in init;
      CastAllSent(b, init, nick, payload);
      CastAllAt(b, init, nick, payload, k);
    }
  }

  /**
   * A private vote is forwarded only when it reads as a vote, and then to
   * every meeting whose channel it ends with, once each, as a private cast;
   * each forward is acknowledged with the meeting's open vote.
   */
  lemma VoteRouting(b: Board, nick: string, channel: string, raw: string)
    requires Wf(b)
    ensures var r := Vote(b, nick, channel, raw);
      var payload := VoteText(raw);
      var routed := channel != [] && channel[0] != '#' && VoteShaped(payload);
      r.0.meetings.Keys == b.meetings.Keys
      && (forall k | k in b.meetings :: r.0.meetings[k]
            == if routed && Names(payload, k) then CastStep(b.meetings[k], nick, payload, true) else b.meetings[k])
      && r.0.sent == b.sent + (if routed then Receipts(b.meetings, b.order, payload) else [])
      && (r.1.Some? <==> channel == [])
  {
    var payload := VoteText(raw);
    if channel != [] && channel[0] != '#' && VoteShaped(payload) {
      forall k | k in b.meetings
        ensures CastAll(b, b.order, nick, payload).meetings[k]
          == if Names(payload, k) then CastStep(b.meetings[k], nick, payload, true) else b.meetings[k]
      {
        CastAllAt(b, b.order, nick, payload, k);
      }
      CastAllSent(b, b.order, nick, payload);
    }
  }

  // ---------------------------------------------------------------------
  // listmeetings.

  /** Python's order on (channel, network) tuples. */
  function KeyOrder(): (le: (Key, Key) -> bool)
    ensures TotalPreorder(le)
  {
    forall a: Key, b: Key ensures KeyLe(a, b) || KeyLe(b, a) {
      StrLeTotal(a.0, b.0);
      StrLeTotal(a.1, b.1);
    }
    forall a: Key, b: Key, c: Key | KeyLe(a, b) && KeyLe(b, c) ensures KeyLe(a, c) {
      KeyLeTransitive(a, b, c);
    }
    (a: Key, b: Key) => KeyLe(a, b)
  }

  predicate KeyLe(a: Key, b: Key) {
    if a.0 == b.0 then StrLe(a.1, b.1) else StrLe(a.0, b.0)
  }

  lemma KeyLeTransitive(a: Key, b: Key, c: Key)
    requires KeyLe(a, b) && KeyLe(b, c)
    ensures KeyLe(a, c)
  {
    if a.0 == b.0 && b.0 == c.0 {
      StrLeTransitive(a.1, b.1, c.1);
    } else if a.0 != b.0 && b.0 != c.0 {
      StrLeTransitive(a.0, b.0, c.0);
      if a.0 == c.0 {
        StrLeAntisymmetric(a.0, b.0);
      }
    }
  }

  /** The characters repr() writes as a `\xhh` escape: the C0 controls, DEL and the C1 controls. */
  predicate HexEscaped(c: char) {
    c < ' ' || ('\U{7F}' <= c <= '\U{9F}')
  }

  const HexDigits: string := "0123456789abcdef"

  /** What repr() writes for one character between the quotes `q`. */
  function ReprChar(c: char, q: char): (r: string)
    ensures r != []
  {
    if c == '\\' then "\\\\"
    else if c == q then ['\\', q]
    else if c == '\n' then "\\n"
    else if c == '\r' then "\\r"
    else if c == '\t' then "\\t"
    else if HexEscaped(c) then "\\x" + [HexDigits[c as int / 16], HexDigits[c as int % 16]]
    else [c]
  }

  /** The text between the quotes of repr(s). */
  function ReprBody(s: string, q: char): string
    decreases |s|
  {
    if s == [] then [] else ReprChar(s[0], q) + ReprBody(s[1..], q)
  }

  /** A character repr() copies as it is. */
  predicate ReprPlain(c: char) {
    c != '\\' && c != '\'' && c != '"' && c != '\n' && c != '\r' && c != '\t' && !HexEscaped(c)
  }

  /**
   * str() of a str inside a tuple, that is repr(): double quotes when the
   * text holds a single quote and no double one, else single quotes, with
   * backslashes, the chosen quote and control characters escaped.
   */
  function Quoted(s: string): (r: string)
    ensures |r| >= 2 && r[0] == r[|r| - 1] && (r[0] == '\'' || r[0] == '"')
  {
    var q := if '\'' in s && '"' !in s then '"' else '\'';
    [q] + ReprBody(s, q) + [q]
  }

  /** Text without quotes, backslashes or control characters prints between single quotes as it is. */
  lemma {:induction false} ReprBodyPlain(s: string, q: char)
    requires forall i | 0 <= i < |s| :: ReprPlain(s[i])
    requires q == '\'' || q == '"'
    ensures ReprBody(s, q) == s
    decreases |s|
  {
    if s != [] {
      ReprBodyPlain(s[1..], q);
    }
  }

  lemma QuotedPlain(s: string)
    requires forall i | 0 <= i < |s| :: ReprPlain(s[i])
    ensures Quoted(s) == "'" + s + "'"
  {
    ReprBodyPlain(s, '\'');
  }

  /** A name holding an apostrophe is printed between double quotes. */
  lemma QuotedApostrophe()
    ensures Quoted("#it's") == "\"#it's\""
  {
    assert '\'' in "#it's" && '"' !in "#it's";
    ReprBodyPlain("#it", '"');
    ReprBodyPlain("s", '"');
    assert ReprBody("#it's", '"') == ReprBody("#it", '"') + ReprBody("'s", '"') by {
      ReprBodyAppend("#it", "'s", '"');
    }
  }

  lemma {:induction false} ReprBodyAppend(a: string, b: string, q: char)
    ensures ReprBody(a + b, q) == ReprBody(a, q) + ReprBody(b, q)
    decreases |a|
  {
    if a == [] {
      assert a + b == b;
    } else {
      assert (a + b)[0] == a[0] && (a + b)[1..] == a[1..] + b;
      ReprBodyAppend(a[1..], b, q);
    }
  }

  /** str((channel, network)). */
  function KeyText(k: Key): (r: string)
    ensures r != []
  {
    "(" + Quoted(k.0) + ", " + Quoted(k.1) + ")"
  }

  /** [str(x) for x in keys] */
  function KeyTexts(keys: seq<Key>): (r: seq<string>)
    ensures |r| == |keys| && forall i | 0 <= i < |keys| :: r[i] == KeyText(keys[i])
  {
    if keys == [] then [] else [KeyText(keys[0])] + KeyTexts(keys[1..])
  }

  const NoMeetingsReply: string := "No currently active meetings"

  /** listmeetings' reply for the cache's keys. */
  function MeetingList(keys: seq<Key>): string {
    var reply := Join(", ", KeyTexts(SortBy(keys, KeyOrder())));
    if reply == "" then NoMeetingsReply else reply
  }

  /** A join of non-empty texts is empty only when there are none. */
  lemma {:induction false} JoinNonEmpty(sep: string, parts: seq<string>)
    requires forall i | 0 <= i < |parts| :: parts[i] != ""
    ensures Join(sep, parts) == "" <==> parts == []
  {
    if parts != [] {
      JoinHead(sep, parts);
    }
  }

  lemma JoinHead(sep: string, parts: seq<string>)
    requires parts != []
    ensures |Join(sep, parts)| >= |parts[0]| && Join(sep, parts)[..|parts[0]|] == parts[0]
  {
    if |parts| > 1 {
      assert Join(sep, parts) == parts[0] + (sep + Join(sep, parts[1..]));
    }
  }

  /**
   * listmeetings names every cached key once, sorted, each as str() of
   * its tuple; the "none" reply comes exactly when the cache is empty.
   */
  lemma MeetingListSpec(keys: seq<Key>)
    ensures var sorted := SortBy(keys, KeyOrder());
      multiset(sorted) == multiset(keys) && SortedBy(sorted, KeyOrder())
      && (MeetingList(keys) == NoMeetingsReply <==> keys == [])
      && (keys != [] ==> MeetingList(keys) == Join(", ", KeyTexts(sorted)))
  {
    var sorted := SortBy(keys, KeyOrder());
    SortBySorted(keys, KeyOrder());
    JoinNonEmpty(", ", KeyTexts(sorted));
    if keys != [] {
      assert |sorted| == |keys| by {
        assert |multiset(sorted)| == |multiset(keys)|;
      }
      var t := Join(", ", KeyTexts(sorted));
      JoinHead(", ", KeyTexts(sorted));
      assert t[0] == KeyText(sorted[0])[0] == '(';
    }
  }

  // ---------------------------------------------------------------------
  // outFilter.

  /**
   * outFilter on one of the bot's own privmsgs to `key`'s channel: the
   * cached meeting logs it as a raw line from the bot's nick; no other
   * meeting, and nothing but that transcript and the attendee count,
   * changes.
   */
  function OutFiltered(b: Board, botnick: string, key: Key, raw: string, now: Time): (r: Board)
    requires Wf(b)
    ensures Wf(r) && Kept(b, r, key) && r.meetings.Keys == b.meetings.Keys
    ensures r.order == b.order && r.recent == b.recent && r.sent == b.sent && r.closed == b.closed
    ensures key in b.meetings ==> r.meetings[key].lines == b.meetings[key].lines + [LogLine(botnick, StripSpace(raw), now)]
  {
    if key in b.meetings then Stored(b, key, RawLineStep(b.meetings[key], botnick, StripSpace(raw), now)) else b
  }

  // ---------------------------------------------------------------------
  // pingall.

  const NotJoinedReply := "Not joined to any channel"
  const DescriptionRequired := "You must supply a description with the `pingall` command.  "
    + "We don't want to go wasting people's times looking for why they are pinged."

  /** Each line as a privmsg to `target`. */
  function SaidAll(target: string, lines: seq<string>): (r: seq<Sent>)
    ensures |r| == |lines| && forall i | 0 <= i < |lines| :: r[i] == Said(target, lines[i])
    decreases |lines|
  {
    if lines == [] then [] else SaidAll(target, lines[..|lines| - 1]) + [Said(target, lines[|lines| - 1])]
  }

  lemma SaidAllAppend(target: string, lines: seq<string>, line: string)
    ensures SaidAll(target, lines + [line]) == SaidAll(target, lines) + [Said(target, line)]
  {
    assert (lines + [line])[..|lines|] == lines;
  }

  /**
   * One more nick for pingall: once the pending line passes 256 characters
   * it is said and a new one begins; otherwise it only grows.
   */
  lemma SendNext(target: string, ns: seq<string>, i: nat)
    requires i < |ns|
    ensures var line := Spaced(Groups(ns[..i]).1) + ns[i] + " ";
      var before := SaidAll(target, Texts(Groups(ns[..i]).0));
      var after := SaidAll(target, Texts(Groups(ns[..i + 1]).0));
      if |line| > PingWidth then after == before + [Said(target, line)] && Spaced(Groups(ns[..i + 1]).1) == ""
      else after == before && Spaced(Groups(ns[..i + 1]).1) == line
  {
    GroupsNext(ns, i);
    SaidAllAppend(target, Texts(Groups(ns[..i]).0), Spaced(Groups(ns[..i]).1) + ns[i] + " ");
  }

  /** The privmsgs of the pingall lines: those of the sent groups, then the pending nickline. */
  lemma ChunksSaid(target: string, ns: seq<string>)
    ensures SaidAll(target, PingChunks(ns)) == SaidAll(target, Texts(Groups(ns).0)) + [Said(target, Spaced(Groups(ns).1))]
  {
    SaidAllAppend(target, Texts(Groups(ns).0), Spaced(Groups(ns).1));
  }

  /**
   * pingall: channel[0] raises IndexError on an empty channel name; a
   * non-channel target and a missing description get a reply; otherwise
   * the description, the nick lines, and the description again go to the
   * channel, with a KeyError after the first announcement when the bot
   * holds no state for the channel.
   */
  function PingAll(b: Board, channel: string, message: Option<string>, chan: Option<Channel>): (r: (Board, Option<Error>))
    ensures r.0 == b.(sent := r.0.sent) && |r.0.sent| >= |b.sent| && r.0.sent[..|b.sent|] == b.sent
    ensures r.1.Some? <==> channel == [] || (channel[0] == '#' && message.Some? && message.value != [] && chan.None?)
  {
    if channel == [] then (b, Some(IndexError))
    else if channel[0] != '#' then (b.(sent := b.sent + [IrcReply(NotJoinedReply)]), None)
    else if message.None? || message.value == [] then (b.(sent := b.sent + [IrcReply(DescriptionRequired)]), None)
    else
      var announced := b.sent + [Said(channel, message.value)];
      if chan.None? then (b.(sent := announced), Some(KeyError(channel)))
      else
        var lines := PingChunks(PingOrder(chan.value.users));
        var r := b.(sent := announced + SaidAll(channel, lines) + [Said(channel, message.value)]);
        assert r.sent[..|b.sent|] == b.sent;
        (r, None)
  }

  /**
   * A ping with a description on a joined channel: the description, then
   * lines that together name every user once in case-insensitive order,
   * each line but the last past 256 characters, then the description again.
   */
  lemma PingAllSends(b: Board, channel: string, message: string, chan: Channel)
    requires channel != [] && channel[0] == '#' && message != []
    ensures var r := PingAll(b, channel, Some(message), Some(chan));
      var lines := PingChunks(PingOrder(chan.users));
      r.1 == None
      && r.0.sent == b.sent + [Said(channel, message)] + SaidAll(channel, lines) + [Said(channel, message)]
      && Concat(lines) == Spaced(PingOrder(chan.users))
      && multiset(PingOrder(chan.users)) == multiset(chan.users)
      && (forall i | 0 <= i < |lines| - 1 :: |lines[i]| > PingWidth)
      && |lines| >= 1 && |lines[|lines| - 1]| <= PingWidth
  {
    PingChunksSpec(PingOrder(chan.users));
  }
}
