// The loops of do_chair, do_unchair, do_voters and do_nick, which walk the
// names of a command line, as methods on values proved against the
// functions of MeetingSteps that specify them.
module NameLoops {
  import opened Wrappers
  import opened Dicts
  import opened Grammar
  import opened MeetingSteps

  /**
   * do_chair's loop: each new non-empty name is warned about if it is not
   * in the channel, registered as an attendee, made chair and sent the
   * command list `commands`.
   */
  method ChairNames(chairs: seq<string>, attendees: seq<(string, nat)>, tokens: seq<string>,
                    users: Option<set<string>>, connected: bool, lurk: bool, commands: string)
    returns (cs: seq<string>, att: seq<(string, nat)>, ev: seq<Output>)
    requires UniqueKeys(attendees)
    ensures cs == AddNames(chairs, tokens)
    ensures att == TouchNew(attendees, chairs, tokens)
    ensures ev == NameEvents(chairs, tokens, users, connected, lurk, Some(commands))
  {
    cs, att, ev := chairs, attendees, [];
    var i := 0;
    while i < |tokens|
      invariant 0 <= i <= |tokens|
      invariant cs == AddNames(chairs, tokens[..i])
      invariant UniqueKeys(att) && att == TouchNew(attendees, chairs, tokens[..i])
      invariant ev == NameEvents(chairs, tokens[..i], users, connected, lurk, Some(commands))
    {
      NamesStep(chairs, attendees, tokens, i, users, connected, lurk, Some(commands));
      var chair := tokens[i];
      if chair != "" && chair !in cs {
        ev := ev + Warning(users, chair, connected, lurk) + PrivateEvents(connected, lurk, chair, commands);
        att := Put(att, chair, Count(att, chair));
        cs := cs + [chair];
      }
      i := i + 1;
    }
    assert tokens[..|tokens|] == tokens;
  }

  /** do_unchair's loop: every listed non-empty name leaves the chairs. */
  method UnchairNames(chairs: seq<string>, tokens: seq<string>) returns (cs: seq<string>)
    ensures cs == RemoveNames(chairs, tokens)
  {
    cs := chairs;
    var i := 0;
    while i < |tokens|
      invariant 0 <= i <= |tokens|
      invariant cs == RemoveNames(chairs, tokens[..i])
    {
      var chair := tokens[i];
      assert tokens[..i + 1][..i] == tokens[..i];
      if chair != "" {
        if chair in cs {
          cs := Without(cs, chair);
        } else {
          WithoutAbsent(cs, chair);
        }
      }
      i := i + 1;
    }
    assert tokens[..|tokens|] == tokens;
  }

  /**
   * do_voters' loop: names join as for #chair, without the command list,
   * until "everyone", "everybody" or "all" stops the loop; `everyone` says
   * whether one did.
   */
  method VoterNames(voters: seq<string>, attendees: seq<(string, nat)>, tokens: seq<string>,
                    users: Option<set<string>>, connected: bool, lurk: bool)
    returns (vs: seq<string>, att: seq<(string, nat)>, ev: seq<Output>, everyone: bool)
    requires UniqueKeys(attendees)
    ensures var k := FirstEveryone(tokens);
      everyone == (k < |tokens|)
      && vs == AddNames(voters, tokens[..k])
      && att == TouchNew(attendees, voters, tokens[..k])
      && ev == NameEvents(voters, tokens[..k], users, connected, lurk, None)
  {
    ghost var k := FirstEveryone(tokens);
    vs, att, ev, everyone := voters, attendees, [], false;
    var i := 0;
    while i < |tokens| && !everyone
      invariant 0 <= i <= k
      invariant everyone ==> i == k < |tokens|
      invariant vs == AddNames(voters, tokens[..i])
      invariant UniqueKeys(att) && att == TouchNew(attendees, voters, tokens[..i])
      invariant ev == NameEvents(voters, tokens[..i], users, connected, lurk, None)
      decreases |tokens| - i, !everyone
    {
      var voter := tokens[i];
      if voter != "" && EveryoneToken(voter) {
        everyone := true;
      } else {
        NamesStep(voters, attendees, tokens, i, users, connected, lurk, None);
        if voter != "" && voter !in vs {
          ev := ev + Warning(users, voter, connected, lurk);
          att := Put(att, voter, Count(att, voter));
          vs := vs + [voter];
        }
        i := i + 1;
      }
    }
    assert !everyone ==> i == |tokens| == k && tokens[..i] == tokens[..k];
  }

  /** do_nick's loop: every non-empty name becomes an attendee. */
  method NickNames(attendees: seq<(string, nat)>, tokens: seq<string>) returns (att: seq<(string, nat)>)
    requires UniqueKeys(attendees)
    ensures att == TouchAll(attendees, tokens)
  {
    att := attendees;
    var i := 0;
    while i < |tokens|
      invariant 0 <= i <= |tokens|
      invariant UniqueKeys(att) && att == TouchAll(attendees, tokens[..i])
    {
      TouchAllStep(attendees, tokens, i);
      if tokens[i] != "" {
        att := Put(att, tokens[i], Count(att, tokens[i]));
      }
      i := i + 1;
    }
    assert tokens[..|tokens|] == tokens;
  }
}
