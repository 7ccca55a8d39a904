// The MeetBot plugin's state: meeting_cache, the (channel, network) keyed
// dictionary of live meetings, and recent_meetings, with the messages the
// bot queues.  Each command changes them in place and is proved to end in
// the board the matching function of Registry computes.
//
// The cache holds each meeting's state as a value: the Meeting class of
// MeetingObject is proved to move between exactly these states, and the
// plugin reaches a meeting only through its key.
module Plugin {
  import opened Wrappers
  import opened Strings
  import opened Clock
  import opened Dicts
  import opened Grammar
  import opened MeetingSteps
  import opened MeetingHandlers
  import opened Registry
  import opened Ping

  lemma Regroup<T>(a: seq<T>, b: seq<T>, x: T, y: T)
    ensures (a + b) + [x, y] == a + (b + [x]) + [y]
  {
  }

  class MeetBot {
    /** meeting_cache, and the order its keys were inserted in. */
    var cache: map<Key, MeetingState>
    var order: seq<Key>
    /** recent_meetings. */
    var recent: seq<Entry>
    /** What the bot has queued or replied so far. */
    var sent: seq<Sent>
    /** The last states of the meetings deleted from the cache. */
    ghost var closed: seq<MeetingState>

    /** The plugin's state as a value. */
    ghost function View(): Board
      reads this
    {
      Board(cache, order, recent, sent, closed)
    }

    ghost predicate Valid()
      reads this
    {
      Wf(View())
    }

    constructor ()
      ensures View() == Empty() && Valid()
    {
      cache := map[];
      order := [];
      recent := [];
      sent := [];
      closed := [];
    }

    /** recent_meetings.append(entry); del recent_meetings[0] past ten. */
    method Remember(entry: Entry)
      modifies this`recent
      ensures recent == Remembered(old(recent), entry)
    {
      recent := recent + [entry];
      if |recent| > RecentLimit {
        recent := recent[1..];
      }
    }

    /** meeting_cache[key] = m, with the start recorded. */
    method Open(key: Key, m: MeetingState, ctime: string)
      requires Valid() && key !in cache && Inv(m)
      modifies this
      ensures View() == Opened(old(View()), key, m, ctime) && Valid()
    {
      cache := cache[key := m];
      order := order + [key];
      Remember((key.0, key.1, ctime));
    }

    /** del meeting_cache[key]. */
    method Drop(key: Key)
      requires Valid() && key in cache
      modifies this
      ensures View() == Dropped(old(View()), key) && Valid()
    {
      closed := closed + [cache[key]];
      cache := cache - {key};
      order := Registry.Without(order, key);
    }

    /**
     * The tail of doPrivmsg: M.addline(nick, payload, isop) on a running
     * meeting, and the key dropped once the meeting is over.
     */
    method Feed(key: Key, nick: string, payload: string, chan: Option<Channel>, add: Adder) returns (raised: Option<Error>)
      requires KeepsInv(add) && Valid()
      modifies this
      ensures (View(), raised) == Registry.Feed(old(View()), add, key, nick, payload, chan) && Valid()
    {
      if key !in cache || cache[key].meetingIsOver {
        return None;
      }
      if chan.None? {
        return Some(KeyError(key.0));
      }
      var st := add(cache[key], nick, payload, nick in chan.value.ops);
      ghost var b1 := Stored(View(), key, st.state);
      cache := cache[key := st.state];
      assert View() == b1;
      raised := st.raised;
      if raised.None? && st.state.meetingIsOver {
        Drop(key);
      }
    }

    /**
     * meeting.Meeting(channel=channel, network=network, owner=nick, ...)
     * for a free key: the new meeting registered, then fed the line.
     */
    method Start(cfg: MeetingConfig, nick: string, key: Key, payload: string, chan: Channel, ctime: string, add: Adder)
      returns (raised: Option<Error>)
      requires KeepsInv(add) && Valid() && key !in cache
      modifies this
      ensures (View(), raised) == Started(old(View()), add, cfg, nick, key, payload, chan, ctime) && Valid()
    {
      var m := Fresh(cfg, key.0, Some(nick), chan.topic, "", true, true, Some(UserSet(chan.users)), key.1);
      Open(key, m, ctime);
      raised := Feed(key, nick, payload, Some(chan), add);
    }

    /** #replay on a free key: an owner-less meeting without callbacks is registered, then the argument is read. */
    method Replay(cfg: MeetingConfig, key: Key, payload: string, chan: Channel, ctime: string)
      returns (raised: Option<Error>)
      requires Valid() && key !in cache && |payload| >= 7
      modifies this
      ensures (View(), raised) == Replayed(old(View()), cfg, key, payload, chan, ctime) && Valid()
    {
      var m := Fresh(cfg, key.0, None, chan.topic, "", true, false, None, key.1);
      Open(key, m, ctime);
      if SplitWhitespace(StripSpace(payload[7..])) == [] {
        raised := Some(IndexError);
      } else {
        raised := Some(AttributeError("replay"));
      }
    }

    /**
     * #abortmeeting by a chair: unless the meeting is over, M.topic(M.oldtopic),
     * M.endtime = now and M._meetingIsOver = True; then it is deleted unsaved.
     */
    method Abort(key: Key, now: Time)
      requires Valid() && key in cache
      modifies this
      ensures View() == Aborted(old(View()), key, now) && Valid()
    {
      if !cache[key].meetingIsOver {
        cache := cache[key := AbortedState(cache[key], now)];
      }
      Drop(key);
      sent := sent + [IrcReply(AbortReply)];
    }

    /** doPrivmsg's #startmeeting branch. */
    method DoStart(cfg: MeetingConfig, nick: string, key: Key, payload: string, chan: Option<Channel>, ctime: string, add: Adder)
      returns (raised: Option<Error>)
      requires KeepsInv(add) && Valid()
      modifies this
      ensures (View(), raised) == Starting(old(View()), add, cfg, nick, key, payload, chan, ctime) && Valid()
    {
      if key in cache {
        sent := sent + [IrcError(StartRefused, true)];
        raised := None;
      } else if chan.None? {
        raised := Some(KeyError(key.0));
      } else {
        raised := Start(cfg, nick, key, payload, chan.value, ctime, add);
      }
    }

    /** doPrivmsg's #replay branch. */
    method DoReplay(cfg: MeetingConfig, key: Key, payload: string, chan: Option<Channel>, ctime: string)
      returns (raised: Option<Error>)
      requires Valid() && |payload| >= 7
      modifies this
      ensures (View(), raised) == Replaying(old(View()), cfg, key, payload, chan, ctime) && Valid()
    {
      if key in cache {
        sent := sent + [IrcError(ReplayRefused, true)];
        raised := None;
      } else if chan.None? {
        raised := Some(KeyError(key.0));
      } else {
        raised := Replay(cfg, key, payload, chan.value, ctime);
      }
    }

    /** doPrivmsg's #endmeeting branch. */
    method DoEnd(nick: string, key: Key, payload: string, chan: Option<Channel>, add: Adder) returns (raised: Option<Error>)
      requires KeepsInv(add) && Valid()
      modifies this
      ensures (View(), raised) == Ending(old(View()), add, nick, key, payload, chan) && Valid()
    {
      if key in cache && cache[key].meetingIsOver {
        match ChairCheck(cache[key], nick, key.0, chan)
        case Err(e) => raised := Some(e);
        case Ok(chair) => raised := if chair then Some(AttributeError("endmeeting")) else None;
      } else {
        raised := Feed(key, nick, payload, chan, add);
      }
    }

    /** doPrivmsg's #abortmeeting branch. */
    method DoAbort(nick: string, key: Key, payload: string, chan: Option<Channel>, now: Time, add: Adder) returns (raised: Option<Error>)
      requires KeepsInv(add) && Valid()
      modifies this
      ensures (View(), raised) == Aborting(old(View()), add, nick, key, payload, chan, now) && Valid()
    {
      if key in cache {
        match ChairCheck(cache[key], nick, key.0, chan)
        case Err(e) => raised := Some(e);
        case Ok(chair) =>
          if chair {
            Abort(key, now);
            raised := None;
          } else {
            raised := Feed(key, nick, payload, chan, add);
          }
      } else {
        raised := Feed(key, nick, payload, chan, add);
      }
    }

    /**
     * MeetBot.doPrivmsg, with the meeting's creation call fixed; `add` is
     * the meeting's addline.
     */
    method DoPrivmsg(cfg: MeetingConfig, nick: string, channel: string, network: string, raw: string,
                     chan: Option<Channel>, ctime: string, now: Time, add: Adder) returns (raised: Option<Error>)
      requires KeepsInv(add) && Valid()
      modifies this
      ensures (View(), raised) == Privmsg(old(View()), add, cfg, nick, channel, network, raw, chan, ctime, now) && Valid()
    {
      var payload := StripSpace(raw);
      var key := (channel, network);
      match RequestOf(payload)
      case StartRequest => raised := DoStart(cfg, nick, key, payload, chan, ctime, add);
      case ReplayRequest => raised := DoReplay(cfg, key, payload, chan, ctime);
      case EndRequest => raised := DoEnd(nick, key, payload, chan, add);
      case AbortRequest => raised := DoAbort(nick, key, payload, chan, now, add);
      case LineRequest => raised := Feed(key, nick, payload, chan, add);
    }

    /** doPrivmsg for a line that arrives when the clock reads `now`: addline takes its time from the clock. */
    method OnPrivmsg(cfg: MeetingConfig, nick: string, channel: string, network: string, raw: string,
                     chan: Option<Channel>, ctime: string, now: Time) returns (raised: Option<Error>)
      requires Valid()
      modifies this
      ensures (View(), raised) == Privmsg(old(View()), AddLineAt(now), cfg, nick, channel, network, raw, chan, ctime, now)
      ensures Valid()
    {
      raised := DoPrivmsg(cfg, nick, channel, network, raw, chan, ctime, now, AddLineAt(now));
    }

    /** voteMeeting.doCastVote(nick, payload, private=True) and its receipt. */
    method CastIn(key: Key, nick: string, payload: string)
      requires Valid() && key in cache
      modifies this
      ensures View() == CastOne(old(View()), key, nick, payload) && Valid()
    {
      var m := CastStep(cache[key], nick, payload, true);
      cache := cache[key := m];
      sent := sent + [IrcReply(ReceivedPrefix + m.activeVote)];
    }

    /**
     * MeetBot.vote: a vote sent privately is cast, privately, in every
     * cached meeting whose channel name ends the payload.
     */
    method Vote(nick: string, channel: string, raw: string) returns (raised: Option<Error>)
      requires Valid()
      modifies this
      ensures (View(), raised) == Registry.Vote(old(View()), nick, channel, raw) && Valid()
    {
      var payload := VoteText(raw);
      if channel == [] {
        return Some(IndexError);
      }
      raised := None;
      if channel[0] != '#' && VoteShaped(payload) {
        CastAllIn(order, nick, payload);
      }
    }

    /** The loop of MeetBot.vote over the keys given, in their order. */
    method CastAllIn(keys: seq<Key>, nick: string, payload: string)
      requires Valid() && forall k | k in keys :: k in cache
      modifies this
      ensures View() == CastAll(old(View()), keys, nick, payload) && Valid()
    {
      ghost var b := View();
      var i := 0;
      while i < |keys|
        invariant 0 <= i <= |keys| && cache.Keys == b.meetings.Keys
        invariant Valid() && View() == CastAll(b, keys[..i], nick, payload)
      {
        CastAllNext(b, keys, i, nick, payload);
        if EndsWith(payload, keys[i].0) {
          CastIn(keys[i], nick, payload);
        }
        i := i + 1;
      }
      assert keys[..i] == keys;
    }

    /** listmeetings: the sorted keys, or the "none" reply. */
    method ListMeetings()
      modifies this`sent
      ensures sent == old(sent) + [IrcReply(MeetingList(order))]
    {
      sent := sent + [IrcReply(MeetingList(order))];
    }

    /** outFilter on an outgoing message: a PRIVMSG to a cached meeting's channel is logged from the bot's nick. */
    method OutFilter(command: string, botnick: string, channel: string, network: string, raw: string, now: Time)
      requires Valid()
      modifies this
      ensures View() == if command == "PRIVMSG" then OutFiltered(old(View()), botnick, (channel, network), raw, now) else old(View())
      ensures Valid()
    {
      var key := (channel, network);
      if command == "PRIVMSG" && key in cache {
        cache := cache[key := RawLineStep(cache[key], botnick, StripSpace(raw), now)];
      }
    }

    /**
     * pingall's loop over the sorted nicks: each joins nickline with a
     * blank, and nickline goes out to `channel` as soon as it is longer
     * than 256 characters; the line still pending is returned.
     */
    method SendNickLines(channel: string, nicks: seq<string>) returns (nickline: string)
      modifies this`sent
      ensures sent == old(sent) + SaidAll(channel, Texts(Groups(nicks).0))
      ensures nickline == Spaced(Groups(nicks).1)
    {
      nickline := "";
      var out: seq<Sent> := [];
      var i := 0;
      while i < |nicks|
        invariant 0 <= i <= |nicks|
        invariant nickline == Spaced(Groups(nicks[..i]).1)
        invariant out == SaidAll(channel, Texts(Groups(nicks[..i]).0))
        invariant sent == old(sent)
      {
        SendNext(channel, nicks, i);
        nickline := nickline + nicks[i] + " ";
        if |nickline| > PingWidth {
          out := out + [Said(channel, nickline)];
          nickline := "";
        }
        i := i + 1;
      }
      assert nicks[..i] == nicks;
      sent := sent + out;
    }

    /** The nick lines of pingall for the channel's users, then the description again. */
    method Ping(channel: string, message: string, users: seq<string>)
      modifies this`sent
      ensures sent == old(sent) + SaidAll(channel, PingChunks(PingOrder(users))) + [Said(channel, message)]
    {
      var nicks := PingOrder(users);
      var nickline := SendNickLines(channel, nicks);
      ChunksSaid(channel, nicks);
      Regroup(old(sent), SaidAll(channel, Texts(Groups(nicks).0)), Said(channel, nickline), Said(channel, message));
      sent := sent + [Said(channel, nickline), Said(channel, message)];
    }

    /**
     * pingall in `channel` with the description `message`; `chan` is the
     * bot's view of the channel.  The nicks go out in lines cut as soon as
     * they pass 256 characters.
     */
    method PingAll(channel: string, message: Option<string>, chan: Option<Channel>) returns (raised: Option<Error>)
      modifies this`sent
      ensures (View(), raised) == Registry.PingAll(old(View()), channel, message, chan)
    {
      if channel == [] {
        return Some(IndexError);
      }
      if channel[0] != '#' {
        sent := sent + [IrcReply(NotJoinedReply)];
        return None;
      }
      if message.None? || message.value == [] {
        sent := sent + [IrcReply(DescriptionRequired)];
        return None;
      }
      sent := sent + [Said(channel, message.value)];
      if chan.None? {
        return Some(KeyError(channel));
      }
      Ping(channel, message.value, chan.value.users);
      raised := None;
    }
  }
}
