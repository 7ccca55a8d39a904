# MeetBot in Dafny

A model of the core of MeetBot (the Gmeetbot fork): the Supybot plugin that
runs IRC meetings. It logs every line, turns `#commands` into minutes items,
runs votes and writes the minutes and logs in several formats. It covers four
files:

- `meeting.py`: the `Config` class (file names and `save`), the `Meeting`
  object (`addline`, and one `do_*` handler per command), and
  `process_meeting` (reading a log back).
- `writers.py`: the escaping helpers, the data `_BaseWriter` and
  `get_template` prepare, and the list-building loops of the HTML2, ReST,
  Text, MediaWiki, PmWiki and Moin writers.
- `plugin.py`: `MeetBot.doPrivmsg` with its meeting cache and
  `recent_meetings`, private `vote`, `outFilter`, `listmeetings` and
  `pingall`.
- `config.py`: the `WriterMap` registry value, the `__getattr__` rule of
  `SupybotConfigProxy`, and `setup_config`.

## How the model is built

- Each value the bot computes is a value in the model.
  - A Python dict is a sequence of `(key, value)` pairs in insertion order
    (module `Dicts`).
  - A dict used as a set (`chairs`, `voters`) is its key list.
  - An exception is an `Error` value, returned beside the new state
    (`Stepped`).
- A `Meeting` object's attributes form one value, `MeetingState`
  (meetingstate.dfy).
  - Every `do_*` handler is a function from state to state
    (`MeetingHandlers`, handlers.dfy).
  - Every such function keeps the invariant `Inv` and the transcript
    (`Keeps`).
- The class `MeetingObject.Meeting` (meeting.dfy) has one method per handler.
  - Each method updates its fields in place.
  - Each method is proved to end in the state its step function gives:
    `Snap() == XStep(old(Snap()), ...)`.
- `addline` is `MeetingHandlers.LineStep` / `Meeting.AddLine`.
  - It logs the line.
  - It dispatches the command or detects a URL.
  - It runs the realtime save.
  - It takes the text as a vote cast when the text looks like one.
- The plugin's module-level state (`meeting_cache`, `recent_meetings`, what
  the bot has said) is the value `Registry.Board`.
  - The class `Plugin.MeetBot` runs the same steps in place.
- The writers' loops are methods proved equal to recursive functions.
  - The shape of their output is proved about those functions: tags
    balanced, one entry per item, headings read back.
- I/O enters as parameters:
  - the clock (`now`, `ctime`);
  - the IRC state (`Channel`);
  - whether callbacks exist (`connected`);
  - the rendering of each item (`render`).
- Files are not written. Each write `Config.save` would make is recorded as
  a `FileWrite` in the state.

## Model

| member | source | states |
|---|---|---|
| Clock.ParseTime | meeting.py:743-747 | `%H:%M:%S` when that parses, and the `%H:%M` reading only otherwise |
| Clock.ParseClock | meeting.py:743-747 | strptime's field bounds: a parsed clock has hour ≤ 23, minute ≤ 59, second ≤ 61 |
| Clock.ParseTimeRoundTrip | meeting.py:713-716 | parse_time reads back what strftime("%H:%M:%S") printed, with the date lost |
| Clock.ParseTimeShortRoundTrip | meeting.py:713-716 | the `%H:%M` fallback reads back hour and minute of strftime("%H:%M") |
| Clock.StrftimeClock | meeting.py:734-736 | strftime("%H:%M:%S") is three zero-padded two-digit fields |
| Grammar.ParseCommand | meeting.py:68 | `command_RE`: a match gives a non-empty `\w` word right after '#' and the argument between surrounding whitespace, with no newline; no match is characterised as well |
| Grammar.CommandShape | meeting.py:68 | the pieces the command pattern yields when the line has the command shape |
| Grammar.CommandOf | meeting.py:667-674 | `hasattr(self, "do_" + cmd)`: a handler exactly for the names of the do_ table |
| Grammar.UrlLineShape | meeting.py:677-679 | with slash-free protocols, a line is a link exactly when it is a protocol followed by `//`, or a bare protocol |
| Grammar.Classify | meeting.py:478-485 | `\+1\b`, then `-1\b`, then `[+-]?0\b`; a class is found exactly when the cast is vote-shaped (`VoteShaped`, meeting.py:681) |
| Grammar.TopicTextPlain | meeting.py:637-646 | without a meeting topic, settopic sets the current topic alone |
| Grammar.TopicTextShape | meeting.py:637-646 | with a meeting topic, the channel topic starts with the old topic and the meeting topic and ends with the "Current topic: " separator and the current topic; its head mentions "meeting" |
| Grammar.MeetingNameNormal | meeting.py:423-430 | `"_".join(line.lower().split())` has no whitespace and is already lower case |
| Grammar.ParseIntRoundTrip | meeting.py:451-459 | `int()` reads back what `%d` prints, for every integer |
| Grammar.ParseIntUnsigned | meeting.py:451-459 | `int()` of a digit string is its decimal value |
| MeetingSteps.Fresh | meeting.py:578-617 | Meeting.__init__: an empty meeting satisfying Inv; an empty old topic is None; with a raw log the `.log.txt` writer comes first |
| MeetingSteps.Owned | meeting.py:767-768 | process_meeting's owner takeover keeps Inv |
| MeetingSteps.LogLineSpoken | meeting.py:711-717 | a spoken line is logged as `HH:MM <nick> line` |
| MeetingSteps.LogLineAction | meeting.py:711-717 | a CTCP ACTION is logged as `HH:MM * nick text`, leading blanks dropped |
| MeetingSteps.RawLineStep | meeting.py:701-720 | addrawline appends the entry and raises the speaker's count by one, nobody else's |
| MeetingSteps.CastStep | meeting.py:684-695 | doCastVote: nothing changes when the nick may not cast; otherwise only the casts, the public list and the outbox change |
| MeetingSteps.CastRecorded | meeting.py:684-695 | an accepted cast becomes the nick's vote and every other nick's cast stays |
| MeetingSteps.CastPublic | meeting.py:684-695 | a public cast appends the nick to the vote's public list and is acknowledged; a private one does neither |
| MeetingSteps.AddNamesSpec | meeting.py:376-388 | the name loop adds exactly the non-empty tokens, each once, keeping earlier names in place |
| MeetingSteps.RemoveNamesSpec | meeting.py:390-397 | the unchair loop removes exactly the listed names |
| MeetingSteps.TouchNewCounts | meeting.py:647-649 | `addnick(t, lines=0)` never changes a line count |
| MeetingSteps.TouchAllSpec | meeting.py:558-565 | #nick makes every listed nick an attendee and changes no line count |
| MeetingSteps.FirstEveryone | meeting.py:508-517 | the position of the first "everyone"/"everybody"/"all", stated both ways |
| MeetingSteps.Roster | meeting.py:386-388 | "Current chairs/voters:": sorting None fails exactly when there is no owner; otherwise the title and then the names with the owner, each once, sorted, joined by ", " |
| MeetingSteps.Replacements | meeting.py:726-740 | exactly the nine replacement keys, and an error exactly when the URL file name fails |
| MeetingSteps.MeetingTopicValue | meeting.py:332-339 | an empty line, "none" and "unset" (any case) clear the meeting topic; anything else is stored verbatim |
| MeetingSteps.ReplyLines | meeting.py:621-626 | one reply per line of a message, in order |
| MeetingSteps.TopicEventOf | meeting.py:631-636 | a topic is set through the channel callback unless lurking, else printed; an absent topic reaches the callback as None (a TOPIC message with no text, `QueryTopic`) and prints as "None" |
| MeetingHandlers.TopicStep | meeting.py:317-323 | do_topic keeps Inv and the transcript; the minutes only grow |
| MeetingHandlers.ChairItemStep | meeting.py:325-330 | do_subtopic/done/accepted/rejected keep Inv and the transcript; `HandlerLaws.ChairItemAppends` states that a chair's line appends exactly `Item(kind, nick, line, linenum, t)` and anyone else's changes nothing |
| MeetingHandlers.AgreedStep | meeting.py:353-360 | do_agreed keeps Inv and the transcript; `HandlerLaws.AgreedAppends` states the one AGREED item a chair adds and the echo exactly when beNoisy |
| MeetingHandlers.ActionStep | meeting.py:533-544 | do_action keeps Inv and the transcript; `HandlerLaws.ActionAppends` states the one Action item anyone adds and the echo exactly when beNoisy |
| MeetingHandlers.OpenItemStep | meeting.py:545-569 | do_info/idea/help/link keep Inv and the transcript; `HandlerLaws.OpenItemAppends` states the one item anyone adds, with no reply |
| MeetingHandlers.MeetingTopicStep | meeting.py:332-339 | do_meetingtopic keeps Inv, the transcript and the minutes; `HandlerLaws.MeetingTopicSets` states the value set or cleared and the recomposed channel topic |
| MeetingHandlers.SaveStep | meeting.py:182-232 | a save changes only the recorded writes |
| MeetingHandlers.DoSaveStep | meeting.py:341-345 | do_save keeps Inv, the transcript and the minutes; `HandlerLaws.DoSaveSets` states endtime := t, then the full save's writes and exception |
| MeetingHandlers.RosterStep | meeting.py:386-388 | the roster reply raises exactly when there is no owner; otherwise it says the `Roster` text (`HandlerLaws.ChairAdds`, `UnchairRemoves`, `VotersAdds`) |
| MeetingHandlers.ChairStep | meeting.py:376-388 | do_chair keeps Inv, the transcript and the minutes |
| MeetingHandlers.UnchairStep | meeting.py:390-397 | do_unchair keeps Inv, the transcript and the minutes |
| MeetingHandlers.UndoStep | meeting.py:399-404 | do_undo keeps Inv and the transcript; the minutes only shrink |
| MeetingHandlers.RestrictLogsAsWritten | meeting.py:406-411 | do_restrictlogs as written (see Findings) keeps Inv, the transcript and the minutes |
| MeetingHandlers.RestrictLogsStep | meeting.py:406-411 | do_restrictlogs with the mask read from Config (the corrected code, the one dispatched) keeps Inv, the transcript and the minutes |
| MeetingHandlers.LurkStep | meeting.py:413-421 | do_lurk/do_unlurk keep Inv, the transcript and the minutes; `HandlerLaws.LurkSets` states the flag and that later replies are printed while lurking |
| MeetingHandlers.MeetingNameStep | meeting.py:423-430 | do_meetingname keeps Inv, the transcript and the minutes; `HandlerLaws.MeetingNameSets` states the normalised name and its reply |
| MeetingHandlers.VoteStep | meeting.py:432-449 | do_vote keeps Inv, the transcript and the minutes |
| MeetingHandlers.VotesRequiredStep | meeting.py:451-459 | do_votesrequired keeps Inv, the transcript and the minutes; `HandlerLaws.VotesRequiredSets` states the margin int(line), or 0, and its reply |
| MeetingHandlers.EndVoteStep | meeting.py:461-506 | do_endvote keeps Inv and the transcript; the minutes only grow; `HandlerLaws.EndVoteRecords` states a closed vote and `HandlerLaws.EndVoteIdle` the reply alone when none is open |
| MeetingHandlers.VotersStep | meeting.py:508-525 | do_voters keeps Inv, the transcript and the minutes |
| MeetingHandlers.PrivateCommandsStep | meeting.py:527-530 | do_private_commands keeps Inv, the transcript and the minutes; `HandlerLaws.PrivateCommandsSends` states the one private command list sent |
| MeetingHandlers.NickStep | meeting.py:558-565 | do_nick keeps Inv, the transcript and the minutes |
| MeetingHandlers.StartMeetingStep | meeting.py:283-295 | do_startmeeting keeps Inv, the transcript and the minutes; `HandlerLaws.StartMeetingStarts` states the start time, the greeting and the opening meeting topic |
| MeetingHandlers.EndMeetingStep | meeting.py:297-315 | do_endmeeting keeps Inv and the transcript; the minutes only grow; `HandlerLaws.EndMeetingOver` states the rest: for a chair the vote closed, the old topic restored and endtime set, then exactly the full save's writes, its exception ending the step before the announcement, and otherwise the announcement of `HandlerLaws.AnnounceOver`; for anyone else no change |
| MeetingHandlers.HandlerStep | meeting.py:667-674 | every handler dispatched by name keeps Inv and the transcript |
| MeetingHandlers.Finish | meeting.py:680-682 | the realtime save and the vote cast keep Inv, the transcript and the minutes |
| MeetingHandlers.LineStep | meeting.py:659-682 | addline keeps Inv; it dispatches the corrected do_restrictlogs (see Findings) |
| MeetingHandlers.Dispatch | meeting.py:665-682 | addline after logging keeps Inv and the transcript; `HandlerLaws.ChatOnlyLogged`, `UrlLineLinked`, `ChatVoteCast`, `UnknownCommandLogged` and `UnknownCommandCast` state the non-handler cases |
| HandlerLaws.LineLogged | meeting.py:659-662 | every line is logged, whatever it triggers, and counted for the speaker alone |
| HandlerLaws.OwnerStaysChair | meeting.py:650-652 | the owner and the configuration survive every line, and the owner stays chair |
| HandlerLaws.NonChairIgnored | meeting.py:376 | a chair-only command from a non-chair changes nothing and raises nothing |
| HandlerLaws.TopicSets | meeting.py:317-323 | #topic sets the current topic, appends the Topic item and sets the channel topic |
| HandlerLaws.ChairAdds | meeting.py:376-388 | #chair adds exactly the listed non-empty names; the roster raises exactly without an owner, and otherwise the `Roster` text of the new chairs and the owner is said after the loop's messages |
| HandlerLaws.UnchairRemoves | meeting.py:390-397 | #unchair removes exactly the listed names; the owner stays chair; the one reply is the `Roster` text of the remaining chairs and the owner |
| HandlerLaws.UndoDropsLast | meeting.py:399-404 | #undo drops exactly the last minutes item, and nothing when there is none |
| HandlerLaws.MinutesGrow | meeting.py:722-724 | every command but #undo only appends to the minutes; #undo only shortens them |
| HandlerLaws.VoteOpens | meeting.py:432-449 | #vote with none open opens one on the line, with no casts and an empty public list, and says "Please vote on: " with the line, then the public-vote help |
| HandlerLaws.VoteStillOpen | meeting.py:435-437 | #vote while one is open only says which |
| HandlerLaws.EndVoteRecords | meeting.py:461-506 | #endvote: carried exactly when for − against ≥ required; the summary, the start line, the Vote item and the three replies; the vote closes |
| HandlerLaws.EndVoteIdle | meeting.py:461-465 | #endvote from a chair with no vote open only replies "No vote in progress" |
| HandlerLaws.VotersEveryone | meeting.py:513-517 | "everyone", "everybody" or "all" empties the voter list |
| HandlerLaws.VotersAdds | meeting.py:508-525 | without such a word, exactly the listed names join the voters; the roster raises exactly without an owner, and otherwise the `Roster` text of the voters and the owner is said after the loop's warnings |
| HandlerLaws.NickRegisters | meeting.py:558-565 | #nick makes the listed nicks attendees and changes nobody's count |
| HandlerLaws.RestrictLogsSets | meeting.py:406-411 | #restrictlogs as intended sets the flag and raises nothing |
| HandlerLaws.RestrictLogsRaises | meeting.py:406-411 | as written it sets the flag and then raises NameError, before its reply |
| HandlerLaws.ChatOnlyLogged | meeting.py:659-682 | a line with no command, URL or vote is only logged and saved |
| HandlerLaws.UrlLineLinked | meeting.py:677-679 | a line starting with a URL protocol becomes a Link item numbered by its log position |
| HandlerLaws.ChatVoteCast | meeting.py:681-682 | a vote-shaped line from an allowed voter during a vote is recorded as that voter's cast |
| HandlerLaws.UnknownCommandLogged | meeting.py:659-682 | a `#word` naming no handler, with an argument that is no vote, is only logged and then saved in real time |
| HandlerLaws.UnknownCommandCast | meeting.py:667-682 | a `#word` naming no handler with a vote-shaped argument casts that argument once the realtime save passed, since the line is rebound to it |
| HandlerLaws.ChairItemAppends | meeting.py:325-330 | a chair's #subtopic/#done/#accepted/#rejected appends exactly `Item(kind, nick, line, linenum, t)` and changes nothing else; anyone else's changes nothing |
| HandlerLaws.AgreedAppends | meeting.py:353-360 | a chair's #agreed appends exactly one AGREED item and replies "AGREED: line" exactly when beNoisy; anyone else's changes nothing |
| HandlerLaws.ActionAppends | meeting.py:533-544 | anyone's #action appends exactly one Action item and replies "ACTION: line" exactly when beNoisy |
| HandlerLaws.OpenItemAppends | meeting.py:545-569 | anyone's #info/#idea/#help/#link appends exactly one item of that kind and sends nothing |
| HandlerLaws.MeetingTopicSets | meeting.py:332-339 | an empty line, "none" or "unset" (any case) clears the meeting topic, any other line becomes it; the channel topic is recomposed from the old topic, the new meeting topic and the current topic |
| HandlerLaws.DoSaveSets | meeting.py:341-345 | a chair's #save sets endtime to the line's time, then records exactly the full save's writes and raises exactly its exception |
| HandlerLaws.LurkSets | meeting.py:413-421 | #lurk/#unlurk set the flag; later replies are sent only when connected and not lurking, else printed |
| HandlerLaws.MeetingNameSets | meeting.py:423-430 | the name is "_".join(line.lower().split()), holds no whitespace, is lower case, and is replied |
| HandlerLaws.VotesRequiredSets | meeting.py:451-459 | the margin is int(line), or 0 when int() fails, and the reply names it; the vote itself is untouched |
| HandlerLaws.VotesRequiredReadsNumber | meeting.py:451-459 | a margin written as '%d' prints it is set to exactly that number |
| HandlerLaws.PrivateCommandsSends | meeting.py:527-530 | one private command list to the asker when connected and not lurking, nothing otherwise; no other change |
| HandlerLaws.GreetWithRaises | meeting.py:287-288 | a start message that fails to format raises its error and sends nothing |
| HandlerLaws.GreetWithSends | meeting.py:289-294 | a formatted start message: its lines, the command lists to the owner and every chair, then the public command list |
| HandlerLaws.GreetedLaw | meeting.py:285-294 | starttime is set before the message is formatted, then the greeting or the error |
| HandlerLaws.StartFromGreeting | meeting.py:294-295 | after the greeting, a non-empty argument from a chair becomes the meeting topic; an empty one changes nothing more |
| HandlerLaws.StartMeetingStarts | meeting.py:283-295 | starttime is always set; when the message formats nothing raises, the greeting is sent and a chair's argument becomes the meeting topic |
| HandlerLaws.ClosingCloses | meeting.py:300-307 | before the save an open vote is ended (its Vote item minuted and its replies sent), a non-empty old topic is set back, and endtime is set; the transcript and writes are untouched |
| HandlerLaws.AnnounceOver | meeting.py:309-315 | an exception from the replacements or the end message leaves the state unchanged; otherwise the message's lines are replied and the meeting is over, then each listed nick is sent the notification unless formatting it raises; nothing is written |
| HandlerLaws.EndMeetingOver | meeting.py:297-315 | a chair's #endmeeting closes the vote, restores the topic and sets endtime whatever happens, writes exactly the full save's files, stops with the save's exception if it raises and otherwise announces; the meeting is over when nothing raised; anyone else's changes nothing |
| MeetingObject.Meeting.constructor | meeting.py:578-617 | the new object's state is `Fresh(...)` |
| MeetingObject.Meeting.Replies | meeting.py:621-626 | the reply events for the lines, in order |
| MeetingObject.Meeting.ChairCommandLists | meeting.py:292-294 | one private command list per chair, in order |
| MeetingObject.Meeting.AddRawLine | meeting.py:701-720 | in place, the state becomes `RawLineStep`; returns the 1-based line number |
| MeetingObject.Meeting.DoCastVote | meeting.py:684-695 | in place, the state becomes `CastStep` |
| MeetingObject.Meeting.DoTopic | meeting.py:317-323 | in place, the state becomes `TopicStep` |
| MeetingObject.Meeting.DoChair | meeting.py:376-388 | in place, the state becomes `ChairStep` |
| MeetingObject.Meeting.DoUnchair | meeting.py:390-397 | in place, the state becomes `UnchairStep` |
| MeetingObject.Meeting.DoUndo | meeting.py:399-404 | in place, the state becomes `UndoStep` |
| MeetingObject.Meeting.DoRestrictLogs | meeting.py:406-411 | in place, the state becomes the corrected `RestrictLogsStep` (see Findings) |
| MeetingObject.Meeting.DoVote | meeting.py:432-449 | in place, the state becomes `VoteStep` |
| MeetingObject.Meeting.DoVotesRequired | meeting.py:451-459 | in place, the state becomes `VotesRequiredStep`, so the margin is int(line) or 0 (`HandlerLaws.VotesRequiredSets`) |
| MeetingObject.Meeting.DoEndVote | meeting.py:461-506 | the counting loop; in place, the state becomes `EndVoteStep` |
| MeetingObject.Meeting.DoVoters | meeting.py:508-525 | in place, the state becomes `VotersStep` |
| MeetingObject.Meeting.DoNick | meeting.py:558-565 | in place, the state becomes `NickStep` |
| MeetingObject.Meeting.DoStartMeeting | meeting.py:283-295 | in place, the state becomes `StartMeetingStep`, so starttime is set and the greeting sent (`HandlerLaws.StartMeetingStarts`) |
| MeetingObject.Meeting.DoEndMeeting | meeting.py:297-315 | in place, the state becomes `EndMeetingStep`: vote closed, topic restored, endtime set, the full save's writes, the save's exception or else the end replies and notifications, and the meeting over after a clean end (`HandlerLaws.EndMeetingOver`) |
| MeetingObject.Meeting.DoChairItem | meeting.py:325-330 | in place, the state becomes `ChairItemStep` (`HandlerLaws.ChairItemAppends`) |
| MeetingObject.Meeting.DoAgreed | meeting.py:353-360 | in place, the state becomes `AgreedStep` (`HandlerLaws.AgreedAppends`) |
| MeetingObject.Meeting.DoAction | meeting.py:533-544 | in place, the state becomes `ActionStep` (`HandlerLaws.ActionAppends`) |
| MeetingObject.Meeting.DoOpenItem | meeting.py:545-569 | in place, the state becomes `OpenItemStep` (`HandlerLaws.OpenItemAppends`) |
| MeetingObject.Meeting.DoMeetingTopic | meeting.py:332-339 | in place, the state becomes `MeetingTopicStep` (`HandlerLaws.MeetingTopicSets`) |
| MeetingObject.Meeting.DoSave | meeting.py:341-345 | in place, the state becomes `DoSaveStep` (`HandlerLaws.DoSaveSets`) |
| MeetingObject.Meeting.DoPrivateCommands | meeting.py:527-530 | sends the private command list to the nick, or nothing while lurking or disconnected |
| MeetingObject.Meeting.DoLurk | meeting.py:413-421 | in place, the state becomes `LurkStep` (`HandlerLaws.LurkSets`) |
| MeetingObject.Meeting.DoMeetingName | meeting.py:423-430 | in place, the state becomes `MeetingNameStep` (`HandlerLaws.MeetingNameSets`) |
| MeetingObject.Meeting.DoCommands | meeting.py:570-572 | replies the sorted list of commands open to everyone |
| MeetingObject.Meeting.Save | meeting.py:182-232 | in place, the writes and exception are `SaveStep`'s, that is `ConfigSave.Save`'s |
| MeetingObject.Meeting.Greet | meeting.py:285-294 | in place, the state becomes `Greeted`: starttime set, then the greeting or the formatting error (`HandlerLaws.GreetedLaw`) |
| MeetingObject.Meeting.CloseMeeting | meeting.py:300-307 | in place, the state becomes `Closing`: the open vote closed, the old topic set back and endtime set (`HandlerLaws.ClosingCloses`) |
| MeetingObject.Meeting.Announce | meeting.py:309-315 | in place, the state becomes `Announced`: the end replies and notifications, over unless formatting raised (`HandlerLaws.AnnounceOver`) |
| MeetingObject.Meeting.Notify | meeting.py:310-315 | one notification per listed nick, or the formatting error |
| MeetingObject.Meeting.Handle | meeting.py:667-674 | in place, the state becomes `HandlerStep` |
| MeetingObject.Meeting.AddLine | meeting.py:659-682 | addline: in place, the state becomes `LineStep` (corrected dispatch, see Findings) |
| MeetingObject.Meeting.DispatchLine | meeting.py:665-682 | in place, the state becomes `Dispatch` |
| ConfigSave.BuildWriters | meeting.py:140-143 | the writer table has distinct keys, with the raw log first when asked for |
| ConfigSave.NormalNamesClean | meeting.py:159-160 | the normalised channel and network are lower case and free of '/' |
| ConfigSave.Filename | meeting.py:146-176 | `_filename` verbatim when set; no start time is an error |
| ConfigSave.FilenameOfLiteral | meeting.py:165-171 | a formatted pattern with no `%` left is joined to the log directory or the URL prefix |
| ConfigSave.FilenameChannelNetwork | meeting.py:155-171 | `%(channel)s-%(network)s` gives a path ending in `channel-network` |
| ConfigSave.FilenameMeetingName | meeting.py:161-171 | `%(meetingname)s` defaults to the channel |
| ConfigSave.FilenameDate | meeting.py:165-171 | `%%F` survives the `%` step and becomes the start date |
| ConfigSave.WriterOrder | meeting.py:194-198 | the writers are visited as a permutation of the table, the raw log first |
| ConfigSave.ParseArgs | meeting.py:210-215 | the arguments after the first bar of a key: an error exactly when a piece has no `=` |
| ConfigSave.SplitKey | meeting.py:210-215 | the bare extension holds no bar, and a key without a bar is its own extension with no arguments |
| ConfigSave.Save | meeting.py:182-232 | the writer loop returns exactly `SaveSpec` |
| ConfigSave.SaveRealtime | meeting.py:188-189 | a realtime save renders only the raw log, nothing with `_filename` set, and is skipped without a start time |
| ConfigSave.SaveOutputs | meeting.py:217-229 | results keyed by bare extension; only str results are written, each under the raw name plus extension, none under dontSave |
| ConfigSave.SaveRawLogFirst | meeting.py:194-198 | with the raw log configured, a full save writes the transcript first |
| ConfigSave.Step | meeting.py:199-229 | one pass of the writer loop: the result stays keyed uniquely and the writes only grow |
| ConfigSave.RunFrom | meeting.py:194-229 | the loop only ever appends to the writes; it keeps bare keys, str-only writes under the raw name and no writes under dontSave; in a realtime save only raw-log results and writes |
| WriterKinds.Format | writers.py:78-88 | format() fails on an unknown keyword or on _BaseWriter; TextLog joins the transcript with newlines |
| WriterKinds.LookupWriterClass | writers.py:481 | a name looks up a writer class exactly for the class names and the two aliases (also writers.py:820) |
| WriterKinds.LookupPyName | config.py:76-80 | looking up an attribute's own __name__ gives the attribute back |
| Replay.ReplayStart | meeting.py:755-759 | the replay meeting has Inv, no owner and no lines |
| Replay.ProcessMeeting | meeting.py:752-779 | process_meeting returns a fresh object whose state is `Replayed` |
| Replay.ReplayAction | meeting.py:773-778 | the action pattern, when it matches, adds "ACTION text" at its parsed time; the state becomes `ActionReplay` |
| Replay.ReplayOne | meeting.py:762-778 | one pass of the loop body on the object: a spoken line goes to `ReplaySpoken`, any other line to the action pattern; the state becomes `ReplayLine` |
| Replay.ReplaySpoken | meeting.py:764-771 | a spoken log line: the first speaker becomes owner and sole chair, the line is added at its parsed time, and only if that raised nothing is its text tried as an ACTION line; the new state is `SpokenReplay` of the old |
| Replay.ReplayLinesStep | meeting.py:761-778 | one loop pass, stopped by the first exception |
| Replay.ReplaySpokenLogLine | meeting.py:748 | logline_re reads back a spoken line addrawline wrote: stamp, nick and text |
| Replay.ReplayActionLogLine | meeting.py:749 | loglineAction_re reads back an ACTION line, which logline_re does not match |
| LogPatterns.SpokenOf | meeting.py:748 | logline_re reads back `stamp <nick> text` |
| LogPatterns.ActionOf | meeting.py:749 | loglineAction_re reads back `stamp * nick text` |
| LogPatterns.ActionNotSpoken | meeting.py:748-749 | an action line is no spoken line |
| Escapes.HtmlIsEscape | writers.py:37-39 | the three chained replacements escape each character on its own |
| Escapes.HtmlNoAngles | writers.py:37-39 | html() output never holds `<` or `>` |
| Escapes.HtmlPlain | writers.py:37-39 | html() is the identity on text without `&`, `<`, `>` |
| Escapes.HtmlRoundTrip | writers.py:37-39 | decoding the three entities gives the text back |
| Escapes.RstIsEscape | writers.py:40-43 | rst() puts a backslash before exactly the underscores followed by a blank, a dash or the end |
| Escapes.RstPlain | writers.py:40-43 | text without underscores passes unchanged |
| Markup.FramedBalanced | writers.py:782-783 | a headed `<ol>` section is balanced in every tag when its body is |
| MinutesTemplate.PageTitleSaysMeeting | writers.py:90-97 | every page title says "meeting" in some case |
| MinutesTemplate.PageTitleWithTopic | writers.py:90-97 | with a topic, `channel: topic`, plus " meeting" exactly when the topic lacks the word |
| MinutesTemplate.NickCountsSpec | writers.py:114-117 | every attendee once, by non-increasing line count |
| MinutesTemplate.SectionsPartition | writers.py:140-158 | every non-topic item lands in exactly one section, in order |
| MinutesTemplate.SectionsTopics | writers.py:140-158 | the sections carry the topic items in order, one each |
| MinutesTemplate.SectionsPrologue | writers.py:140-158 | the Prologue is there exactly when the minutes do not open with a topic, and only first |
| MinutesTemplate.SectionsPrologueItems | writers.py:140-158 | an empty Prologue only for empty minutes |
| MinutesTemplate.MeetingSections | writers.py:140-158 | the MeetingItems loop returns exactly `Sections` |
| MinutesTemplate.TemplateUnassigned | writers.py:194-211 | the UNASSIGNED entry lists the action items naming no attendee, only when there are at least two (`> 1`, writers.py:207) |
| MinutesTemplate.PersonGroupsNonEmpty | writers.py:194-211 | every attendee entry has at least one item |
| MinutesTemplate.GetTemplate | writers.py:136-236 | the lists equal `TemplateOf`, and the items' marks become `MarkedBy` |
| ActionGroups.MentionsIff | writers.py:119-129 | the nick pattern matches exactly when the nick stands as a whole word, in some case, before the first newline |
| ActionGroups.SortedNicksSpec | writers.py:119-129 | every attendee once, in case-insensitive order |
| ActionGroups.NickGroupsSpec | writers.py:119-129 | one group per nick, holding exactly the action items naming it |
| ActionGroups.MarkedByIff | writers.py:126-127 | an item is marked exactly when it was, or some visited nick collected it |
| ActionGroups.UnassignedAfterGrouping | writers.py:130-134 | after the grouping, the unassigned list is exactly the action items no attendee names |
| ActionGroups.CollectNick | writers.py:119-129 | one generator run to the end: its items and the marks it sets |
| ActionGroups.ActionItemsNick | writers.py:119-129 | iterActionItemsNick, every generator consumed |
| ActionGroups.ActionItemsUnassigned | writers.py:130-134 | the unmarked action items |
| Votes.TallyCounts | meeting.py:474-483 | each counter is the number of casts of its class |
| Votes.CountOfPartition | meeting.py:474-483 | every cast falls in exactly one class |
| Votes.TallyTotal | meeting.py:474-483 | the counters add up to at most the casts, exactly when all are vote-shaped |
| Votes.Outcome | meeting.py:486-493 | "Carried" exactly when for − against ≥ required, else "Denied" |
| Html2.MeetingItemsOlBalanced | writers.py:613-678 | every `<ol>` of the minutes block is closed exactly once, for any items |
| Html2.ItemStepOpensSublist | writers.py:613-678 | the first subtopic or plain item after a topic opens the nested list; later ones do not |
| Html2.PlainItemsNested | writers.py:613-678 | a plain item is never written at the outer indent |
| Html2.AppendItem | writers.py:622-675 | one loop pass equals `ItemStep` |
| Html2.MeetingItems | writers.py:613-678 | the block equals `Render(MeetingItemsLines)` |
| Html2.VotesAsWrittenUl | writers.py:680-701 | as written, n votes leave n − 1 `<ul>` unclosed |
| Html2.VotesAsWrittenUnbalanced | writers.py:697-698 | as written, two or more votes give an unbalanced block (see Findings) |
| Html2.VotesBalanced | writers.py:680-701 | the corrected vote block is balanced in every tag |
| Html2.Votes | writers.py:680-701 | HTML2.votes, corrected (see Findings); format() never calls votes() (writers.py:785-818) |
| Html2.ActionItemsSpec | writers.py:703-718 | the block is missing exactly when no item is an action, and balanced otherwise |
| Html2.ActionItems | writers.py:703-718 | the loop returns `RenderBlock(ActionItemsBlock)` |
| Html2.ActionItemsPersonSpec | writers.py:720-750 | missing exactly when no attendee is named by an action item; balanced otherwise |
| Html2.PersonGroupLines | writers.py:726-740 | an attendee's entry is written exactly when its group has an item |
| Html2.ActionItemsPerson | writers.py:720-750 | the block equals `ActionItemsPersonBlock`; the marks become `MarkedBy` |
| WikiText.TextHeadingLines | writers.py:1051-1052 | a Text heading is the name underlined by exactly as many dashes |
| WikiText.WikiHeadingReadBack | writers.py:1169-1170 | the level of a wiki heading reads back from its `=` run; the name sits between mirrored runs (Moin repeats it, writers.py:1347-1348) |
| WikiText.PmWikiHeadingReadBack | writers.py:1207-1208 | the level of a PmWiki heading reads back from its `!` run |
| WikiText.ListLinesAt | writers.py:972-990 | each item adds a blank line before a non-first topic, then its entry, nested exactly when it follows a topic |
| WikiText.ListEntries | writers.py:875-897 | without the blank lines, one entry per item, in order |
| WikiText.ListSeparators | writers.py:875-897 | the blank lines number one fewer than the topics |
| WikiText.ListItems | writers.py:972-990 | the shared list loop of ReST, Text and MediaWiki equals `ListLines` (also writers.py:1090-1106) |
| WikiText.MoinFlagsMean | writers.py:1218-1243 | Moin's two flags mean "some non-subtopic item" and "a subtopic since the last topic" |
| WikiText.MoinLinesAt | writers.py:1218-1243 | what each item adds to the Moin list |
| WikiText.MoinItems | writers.py:1218-1243 | the Moin loop equals `MoinLines` |
| WikiText.MoinVotesSpec | writers.py:1254-1271 | no block exactly without votes; otherwise every vote linked once |
| WikiText.MoinVotes | writers.py:1254-1271 | Moin.votes equals `MoinVotesText` |
| Registry.RequestOfSpec | plugin.py:106-159 | each registry command is recognised by its case-insensitive prefix, in order |
| Registry.RememberedSpec | plugin.py:120-123 | recent_meetings keeps the newest entry and at most ten |
| Registry.RememberAllWindow | plugin.py:120-123 | recent_meetings is always the last ten starts, oldest first |
| Registry.Opened | plugin.py:119-123 | the meeting cached under the key, and the start remembered |
| Registry.Dropped | plugin.py:174-175 | `del meeting_cache[key]`: only that key leaves |
| Registry.ChairCheck | plugin.py:80-83 | owner, chair or op; KeyError exactly when the channel is unknown and the nick is neither owner nor chair |
| Registry.Feed | plugin.py:169-175 | nothing for a missing or ended meeting; other meetings kept; no ended meeting left behind |
| Registry.Started | plugin.py:111-123 | the start is remembered; other meetings kept |
| Registry.Replayed | plugin.py:125-153 | a replay meeting is cached, then IndexError or AttributeError("replay") |
| Registry.Aborted | plugin.py:159-166 | the meeting leaves unsaved, marked over, and the bot says so |
| Registry.AbortedState | plugin.py:161-164 | the aborted meeting keeps its transcript, minutes and writes, is over, and its outbox gains the old topic, or a topic of None when the channel had none |
| Registry.Privmsg | plugin.py:64-175 | doPrivmsg with the creation call fixed (see Findings) keeps every other key's meeting |
| Registry.StartCallRaises | plugin.py:111-118 | the #startmeeting call raises TypeError at `botIsOp=` |
| Registry.ReplayCallRaises | plugin.py:130-134 | the #replay call raises TypeError at `botIsOp=` |
| Registry.CallsFixed | meeting.py:578-583 | without `botIsOp=` both calls bind |
| Registry.Declared | meeting.py:578-583 | botIsOp is the one keyword Meeting.__init__ lacks |
| Registry.PrivmsgAsWritten | plugin.py:106-134 | doPrivmsg as written keeps the registry well formed |
| Registry.StartAsWrittenRaises | plugin.py:111 | as written, no meeting can be started: the registry is unchanged and TypeError raised |
| Registry.StartRefusedKeeps | plugin.py:107-110 | #startmeeting on a busy key: a private error and nothing else |
| Registry.StartRegisters | plugin.py:106-123 | #startmeeting on a free key: the start remembered, the meeting holds the line and stays unless that line ended it |
| Registry.FeedRunning | plugin.py:169-175 | a running meeting gets its addline; the key leaves when that ends it |
| Registry.AbortDrops | plugin.py:159-166 | #abortmeeting by a chair drops the meeting unsaved, transcript and files as they were |
| Registry.OverLeavesCache | plugin.py:174-175 | a step that raises nothing leaves no ended meeting cached |
| Registry.IdleLineIgnored | plugin.py:169 | a line without a running meeting reaches no transcript |
| Registry.RunningLineFed | plugin.py:169-175 | a line for a running meeting is exactly its addline |
| Registry.VoteRouting | plugin.py:177-201 | a private vote is forwarded only when vote-shaped, to every meeting whose channel it ends with, once, as a private cast, each acknowledged |
| Registry.CastAllAt | plugin.py:191-198 | over distinct keys, a named meeting gets exactly one private cast |
| Registry.Quoted | plugin.py:232 | `repr` of a str: the same quote at both ends, `'` or `"` |
| Registry.QuotedPlain | plugin.py:232 | a string of plain characters is quoted with `'` and copied |
| Registry.QuotedApostrophe | plugin.py:232 | "#it's" prints with double quotes |
| Registry.MeetingListSpec | plugin.py:228-237 | listmeetings names every key once, sorted; "No currently active meetings" exactly when the cache is empty |
| Registry.OutFiltered | plugin.py:203-223 | the bot's own privmsg is logged in that channel's meeting only |
| Registry.PingAll | plugin.py:301-337 | an exception exactly on an empty channel name (IndexError) or, after the first announcement, a channel the bot holds no state for (KeyError); only the sent messages grow |
| Registry.PingAllSends | plugin.py:324-336 | the description, lines naming every user once in case-insensitive order (each but the last over 256 characters), then the description |
| Ping.GroupsFlatten | plugin.py:329-333 | every nick lands in exactly one line, in order |
| Ping.GroupsPending | plugin.py:329-333 | the pending nickline stays within 256 characters |
| Ping.GroupsFull | plugin.py:329-333 | every sent line passed 256 characters with its last nick, not before |
| Ping.PingChunksSpec | plugin.py:329-334 | the lines spell every nick once, in order |
| Ping.PingOrder | plugin.py:327-328 | a permutation of the users, sorted case-insensitively |
| Plugin.MeetBot.constructor | plugin.py:64-175 | an empty registry |
| Plugin.MeetBot.Remember | plugin.py:120-123 | in place, recent becomes `Remembered` |
| Plugin.MeetBot.DoPrivmsg | plugin.py:64-175 | in place, the board becomes `Privmsg` (the corrected creation call, see Findings) |
| Plugin.MeetBot.OnPrivmsg | plugin.py:64-175 | doPrivmsg with addline at the clock reading |
| Plugin.MeetBot.Vote | plugin.py:177-201 | in place, the board becomes `Registry.Vote` |
| Plugin.MeetBot.ListMeetings | plugin.py:228-237 | replies `MeetingList` of the keys |
| Plugin.MeetBot.OutFilter | plugin.py:203-223 | only a PRIVMSG changes the board, as `OutFiltered` |
| Plugin.MeetBot.SendNickLines | plugin.py:329-333 | sends exactly the full groups and returns the pending line |
| Plugin.MeetBot.PingAll | plugin.py:301-337 | in place, the board becomes `Registry.PingAll` |
| Plugin.MeetBot.Ping | plugin.py:325-336 | after the announcement: the users sorted case-insensitively, sent in the `PingChunks` lines (each cut once past 256 characters, then the rest), then the message again |
| Plugin.MeetBot.DoStart | plugin.py:106-123 | in place, the board becomes `Starting`: refused while the key is cached (`Registry.StartRefusedKeeps`), else `Started` |
| Plugin.MeetBot.DoReplay | plugin.py:125-153 | in place, the board becomes `Replaying`: refused while the key is cached, else `Replayed` |
| Plugin.MeetBot.DoEnd | plugin.py:155-158 | in place, the board becomes `Ending`: a chair's #endmeeting on an ended cached meeting raises AttributeError("endmeeting"), otherwise the line is fed |
| Plugin.MeetBot.DoAbort | plugin.py:159-166 | in place, the board becomes `Aborting`: a chair's #abortmeeting drops the meeting unsaved (`Registry.AbortDrops`), otherwise the line is fed |
| Plugin.MeetBot.CastIn | plugin.py:193-198 | in place, the board becomes `CastOne`: a private cast in that meeting and the receipt naming its vote |
| Plugin.MeetBot.CastAllIn | plugin.py:191-198 | the loop over the cache keys; the board becomes `CastAll` (`Registry.CastAllAt`) |
| NameLoops.ChairNames | meeting.py:378-385 | do_chair's loop equals AddNames / TouchNew / NameEvents |
| NameLoops.UnchairNames | meeting.py:392-396 | do_unchair's loop equals RemoveNames |
| NameLoops.VoterNames | meeting.py:511-524 | do_voters' loop up to the first resetting word |
| NameLoops.NickNames | meeting.py:560-565 | do_nick's loop equals TouchAll |
| SupybotConfig.WriterMap.Set | config.py:62-73 | the value is replaced exactly when every token parses, by the dict `SetSpec` gives; otherwise the first error and the old value |
| SupybotConfig.WriterMap.ToString | config.py:76-80 | `__str__` equals `Shown` |
| SupybotConfig.ParsedOk | config.py:62-73 | set succeeds exactly when every token parses |
| SupybotConfig.ParsedFirstError | config.py:65-71 | the error raised is the first failing token's |
| SupybotConfig.ParsedKeys | config.py:72 | the dict holds exactly the tokens' extensions |
| SupybotConfig.ParsedLastWins | config.py:72 | a later duplicate extension overwrites an earlier one |
| SupybotConfig.TokenNoColon | config.py:66 | a token without ':' fails to unpack |
| SupybotConfig.TokenTwoColons | config.py:66 | so does a token with two colons |
| SupybotConfig.TokenFields | config.py:66-72 | a one-colon token parses exactly when the writer name exists and the extension is '.' plus at least one character; each failure raises its own ValueError |
| SupybotConfig.ParsedLoaded | config.py:62-72 | every stored entry has a good extension and a writer whose __name__ looks it up again |
| SupybotConfig.PairsError | config.py:76-80 | `__str__` fails exactly on a value without __name__ |
| SupybotConfig.SetShownRoundTrip | config.py:62-80 | setting what `__str__` prints gives the same mapping, in the same order |
| SupybotConfig.ProxyValue | config.py:99-117 | non-settable names and `'.'` give the default; a non-str registry value is returned as is; any other str is unescaped |
| SupybotConfig.UnescapeEscaped | config.py:112 | unescaping undoes setup_config's escaping when no backslash-n was there already |
| SupybotConfig.UnescapeEscapedLossy | config.py:112 | a literal backslash-n does not survive |
| SupybotConfig.EscapedDot | config.py:111 | only "." escapes to "." |
| SupybotConfig.ClassifySkipped | config.py:142-160 | an attribute is skipped exactly for a '_' name or an unhandled kind |
| SupybotConfig.ClassifyKind | config.py:146-158 | the type tests in their order: str, bool, list, writer_map, `_RE` |
| SupybotConfig.RegistrationsError | config.py:142 | only an empty attribute name stops the loop |
| SupybotConfig.RegisteredNames | config.py:140-162 | every registered name is an attribute's name not starting with '_' |
| SupybotConfig.UnderscoreReadsDefault | config.py:103-117 | a '_' name always reads the Config default |
| SupybotConfig.StringDefaultReadsBack | config.py:146-149 | an untouched str default reads back as the attribute |
| SupybotConfig.ConfigRegistry.SetupConfig | config.py:137-162 | the loop registers exactly `Registrations` and appends their names to settable_attributes |
| SupybotConfig.ConfigRegistry.Register | config.py:161-162 | one registration and its name appended |

## Left out

- Unicode: `Strings.IsWordChar` (`\w`) and `Strings.LowerChar` (`str.lower`) are ASCII-only.
  - Python 3 works on Unicode, so everything built on them is narrower than the source.
  - Affected members:
    - `Grammar.ParseCommand` (a command word like `#tópico` is no command here);
    - `Grammar.VoteShaped` and `Grammar.Classify` (`\b` after `+1`);
    - the lower-casing in `Grammar.MeetingName`, `ConfigSave.NormalChannel` and `Registry.RequestOf`;
    - `ActionGroups.Mentions`;
    - `Strings.LowerOrder`, as used by `ActionGroups.SortedNicks` and `Ping.PingOrder`;
    - `Grammar.ParseInt` (`Strings.IsDigit` is `0`-`9` only, so `#votesrequired ٣` sets 0 here where `int()` gives 3).
- Strings.PercentFormat: only `%(key)s` and `%%` are understood. Flags, widths and other conversions (`%(channel)10s`, a bare `%s`) are a ValueError in the model, while Python formats them. This reaches `ConfigSave.Filename` through a user-set `filenamePattern`, and the start and end messages.
- MeetingHandlers.SessionStep: do_replay's `utils.web.getUrl(url)` and `print` (meeting.py:277-281) are left out. In the source the fetch can raise, which skips addline's realtime save and vote check; the model's #replay only replies and never raises.
- Registry.Replayed: leaves out plugin.py:142-145.
  - In the source, a #replay URL matching `logfile_RE` sets the cached meeting's `channel` and `starttime` before `M.replay` raises.
  - In the model the cached replay meeting keeps its channel and has no start time.
- Registry.Quoted: writes `repr` for ASCII text only.
  - It quotes the way `repr` does and escapes `\\`, the quote, `\n`, `\r`, `\t` and the C0/C1 controls.
  - It does not escape other non-printable characters (such as U+2028, or unassigned code points) as `\u`/`\U`.
- Clock.Strftime: only `%H %M %S %Y %m %d %F %%`. `%b` (the `startdate` replacement, writers.py:104) and time zones are not modelled.
- Clocks and the system: `time.localtime()`, `time.ctime()`, the IRC connection and the Supybot registry are parameters (`now`, `ctime`, `Channel`, `connected`, `PyValue`).
- `Config.save`'s optional `save_hook` (meeting.py:230-231) is a callback into code outside the core and is left out.
- Files: writing, `os.makedirs`, `restrictPermissions` and the chmod of #restrictlogs are left out. `Config.save` records each write as a `FileWrite` (meeting.py:234-242 writeToFile).
- Rendering: each item's own text (items.py, not part of this model) is the parameter `render`.
  - get_template's string template assembly, `replaceWRAP`/`wrapList` text wrapping, `getCSS`, HTMLlog1 (pygments) and HTMLfromReST (docutils) are left out.
  - `WriterKinds.Format` returns an opaque `Document` for every writer except TextLog: Template, HTMLlog1, HTMLlog2, HTML1, HTML2, ReST, HTMLfromReST, Text, MediaWiki, PmWiki and Moin. Their pieces that the model does render (the HTML2 item and action lists, the wiki and text lists and headings, the Moin votes) are separate members; the assembled page is not. The `Document` is bytes where the source gets bytes.
- `MeetingHandlers.RestrictLogsStep` reads the mask as the string `oct(RestrictPerm)`. The permission change on disk is left out.
- Users of a channel are a sequence. Supybot's `ircutils.IrcSet` ordering and IRC case folding are not modelled.
- The `channelNicks` callback is a set captured when the meeting starts, not read afresh at each call.
- The "Deadlock" branch of do_endvote (meeting.py:490-493) cannot be reached (the two earlier conditions cover every case), so `Votes.Outcome` has no such result.
- `msg.channel` for a private message is modelled as a name that does not start with '#'; `MeetBot.vote`'s wrap converters are not modelled.
- do_endmeeting's `add` keyword, `Meeting.replay` and `M.endmeeting` do not exist in the source. Calling them raises AttributeError, and so does the model (`Registry.Replayed`, `Registry.Ending`).
- The plugin's admin commands `savemeetings`, `addchair`, `deletemeeting` and `recent` (plugin.py:239-299) are left out. They only call Meeting methods modelled above or print recent_meetings.
- The plugin cache holds meeting values, not shared objects: that a callback closure and the cache alias one Meeting is not modelled.
- `is_supybotconfig_enabled`, `get_config_proxy` and the proxy's `__init__` (config.py:93-97, 131-133, 165-168) only wire classes together and are left out.
- `SupybotConfigProxy.__getattr__` rebinding methods to the proxy (config.py:124-127) is left out. `SupybotConfig.ProxyValue` covers data attributes.
- The `Regex` registry class (config.py:83-90) is left out: compiling a pattern is not modelled, and `Classify` only records the RegexType choice.
- `conf.registerChannelValue` is modelled as appending a `Registration`; Supybot's registry itself is outside the model.
- The attributes of the writers module that `WriterKinds.Lookup` lists are the writer classes and a few helpers. Any other module attribute is reported as missing.
- Config values are abstract `PyValue`s (str, bool, list, writer map, other). Python's other types are all `PyObject`.
- `process_meeting`'s `safeMode` and `extraConfig` are folded into the given `MeetingConfig`.
- `pingall`'s command wrapper (`wrap(pingall, [optional('text')])`) is modelled as an optional description.

## Findings

| source | as written | input that shows it | evidently intended | confidence | as-written member | corrected member |
|---|---|---|---|---|---|---|
| plugin.py:111 | `meeting.Meeting(..., botIsOp=...)`, and also at plugin.py:131, though `Meeting.__init__` (meeting.py:578-583) declares no `botIsOp` and no `**kwargs` | "#startmeeting" in any channel with no meeting running | create the meeting without that keyword | not executed | Registry.PrivmsgAsWritten / Registry.StartAsWrittenRaises | Registry.Privmsg / Registry.StartRegisters |
| meeting.py:411 | `oct(RestrictPerm)` names a bare `RestrictPerm`, which exists only as `Config.RestrictPerm` (meeting.py:62) | "#restrictlogs" from a chair: the flag is set, then NameError skips the reply, the realtime save and the vote check | read `self.config.RestrictPerm` | not executed | MeetingHandlers.RestrictLogsAsWritten / HandlerLaws.RestrictLogsRaises | MeetingHandlers.RestrictLogsStep / HandlerLaws.RestrictLogsSets |
| writers.py:697 | each vote opens `<li>` and `<ul><li>`, but one `</li></ul>` and one `</li>` after the loop close them all | two votes: n votes leave n − 1 `<ul>` open. HTML2.format (writers.py:785-818) never calls votes(), so no written file shows it | close each vote's entry inside the loop | not executed | Html2.VotesAsWritten / Html2.VotesAsWrittenUnbalanced | Html2.VotesBlock / Html2.VotesBalanced |
