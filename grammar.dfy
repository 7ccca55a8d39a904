// The text-level rules of meeting.py: the command grammar
// `^#(\w+)(?:\s+(.*?)|)\s*$`, the closed table of `do_*` handlers, link
// detection, the vote-prefix test `([+-]1|[+-]?0)\b` and the tally classes,
// the channel-topic composition of settopic, the #meetingname normalisation
// and Python's int() as #votesrequired uses it.
module Grammar {
  import opened Wrappers
  import opened Strings

  predicate AllSpace(s: string) { forall c | c in s :: IsSpace(c) }

  /** `s` is whitespace, then `a` from index `pre`, then whitespace. */
  predicate PaddedAt(s: string, a: string, pre: nat) {
    pre + |a| <= |s| && s[pre..pre + |a|] == a
    && AllSpace(s[..pre]) && AllSpace(s[pre + |a|..])
  }

  /**
   * command_RE.match(line).groups(''): the command word and its argument.
   * `\w+` takes the longest word run after '#'; the argument is what follows
   * the whitespace gap, up to the trailing whitespace; `.` does not cross a
   * newline.
   */
  function ParseCommand(line: string): (r: Option<(string, string)>)
    ensures r.Some? ==> var (cmd, arg) := r.value;
      cmd != [] && (forall c | c in cmd :: IsWordChar(c))
      && StartsWith(line, "#" + cmd)
      && var rest := line[1 + |cmd|..];
      (rest == [] || IsSpace(rest[0]))
      && (exists pre: nat :: PaddedAt(rest, arg, pre))
      && (arg == [] || (!IsSpace(arg[0]) && !IsSpace(arg[|arg| - 1])))
      && '\n' !in arg
    ensures r.None? ==>
      |line| < 2 || line[0] != '#' || !IsWordChar(line[1])
      || (var e := SkipWhile(line, 1, IsWordChar);
          (e < |line| && !IsSpace(line[e])) || '\n' in StripSpace(line[e..]))
  {
    if |line| < 2 || line[0] != '#' || !IsWordChar(line[1]) then None
    else
      var e := SkipWhile(line, 1, IsWordChar);
      if e < |line| && !IsSpace(line[e]) then None
      else
        var rest := line[e..];
        var arg := StripSpace(rest);
        if '\n' in arg then None
        else
          CommandShape(line, e);
          Some((line[1..e], arg))
  }

  /** The pieces ParseCommand returns when the line is a command. */
  lemma CommandShape(line: string, e: nat)
    requires 2 <= |line| && line[0] == '#' && IsWordChar(line[1])
    requires e == SkipWhile(line, 1, IsWordChar) && (e == |line| || IsSpace(line[e]))
    requires '\n' !in StripSpace(line[e..])
    ensures var cmd, arg := line[1..e], StripSpace(line[e..]);
      cmd != [] && (forall c | c in cmd :: IsWordChar(c))
      && StartsWith(line, "#" + cmd)
      && var rest := line[1 + |cmd|..];
      (rest == [] || IsSpace(rest[0]))
      && (exists pre: nat :: PaddedAt(rest, arg, pre))
      && (arg == [] || (!IsSpace(arg[0]) && !IsSpace(arg[|arg| - 1])))
      && '\n' !in arg
  {
    assert line[..e] == "#" + line[1..e];
    TrimmedPieces(line[e..]);
  }

  /** StripSpace(s) sits between a whitespace prefix and a whitespace suffix of s. */
  lemma TrimmedPieces(s: string)
    ensures var a := StripSpace(s);
      (exists pre: nat :: PaddedAt(s, a, pre))
      && (a == [] || (!IsSpace(a[0]) && !IsSpace(a[|a| - 1])))
  {
    var l := LStrip(s, IsSpace);
    var a := RStrip(l, IsSpace);
    assert StripSpace(s) == a;
    var pre := |s| - |l|;
    assert s == s[..pre] + l;
    assert l == a + l[|a|..];
    assert s[pre + |a|..] == l[|a|..];
    assert s[pre..pre + |a|] == a;
    assert AllSpace(s[..pre]);
    assert AllSpace(s[pre + |a|..]);
    assert PaddedAt(s, a, pre);
    if a != [] {
      assert a[0] == l[0];
    }
  }

  /** One of the bot's `do_*` methods. */
  datatype Handler =
    | ReplayCmd | StartMeetingCmd | EndMeetingCmd | TopicCmd | SubtopicCmd | MeetingTopicCmd
    | SaveCmd | DoneCmd | AgreedCmd | AcceptedCmd | RejectedCmd | ChairCmd | UnchairCmd
    | UndoCmd | RestrictLogsCmd | LurkCmd | UnlurkCmd | MeetingNameCmd | VoteCmd
    | VotesRequiredCmd | EndVoteCmd | VotersCmd | PrivateCommandsCmd | ActionCmd | InfoCmd
    | IdeaCmd | HelpCmd | NickCmd | LinkCmd | CommandsCmd

  /** Every `do_<name>` attribute of a Meeting, aliases included. */
  const CommandTable: seq<(string, Handler)> := [
    ("replay", ReplayCmd), ("startmeeting", StartMeetingCmd), ("endmeeting", EndMeetingCmd),
    ("topic", TopicCmd), ("subtopic", SubtopicCmd), ("progress", SubtopicCmd),
    ("meetingtopic", MeetingTopicCmd), ("save", SaveCmd), ("done", DoneCmd),
    ("agreed", AgreedCmd), ("agree", AgreedCmd), ("accepted", AcceptedCmd),
    ("accept", AcceptedCmd), ("rejected", RejectedCmd), ("reject", RejectedCmd),
    ("chair", ChairCmd), ("unchair", UnchairCmd), ("undo", UndoCmd),
    ("restrictlogs", RestrictLogsCmd), ("lurk", LurkCmd), ("unlurk", UnlurkCmd),
    ("meetingname", MeetingNameCmd), ("vote", VoteCmd), ("votesrequired", VotesRequiredCmd),
    ("endvote", EndVoteCmd), ("voters", VotersCmd), ("private_commands", PrivateCommandsCmd),
    ("action", ActionCmd), ("info", InfoCmd), ("idea", IdeaCmd), ("help", HelpCmd),
    ("halp", HelpCmd), ("nick", NickCmd), ("link", LinkCmd), ("commands", CommandsCmd)]

  function LookupFrom(name: string, table: seq<(string, Handler)>): (r: Option<Handler>)
    ensures r.Some? <==> exists k | 0 <= k < |table| :: table[k].0 == name
    ensures r.Some? ==> exists k | 0 <= k < |table| :: table[k] == (name, r.value)
  {
    if table == [] then None
    else if table[0].0 == name then Some(table[0].1)
    else
      var r := LookupFrom(name, table[1..]);
      assert forall k | 1 <= k < |table| :: table[k] == table[1..][k - 1];
      r
  }

  /** hasattr(self, "do_" + name): the handler for an already lower-cased command name. */
  function CommandOf(name: string): (r: Option<Handler>)
    ensures r.Some? <==> exists k | 0 <= k < |CommandTable| :: CommandTable[k].0 == name
  {
    LookupFrom(name, CommandTable)
  }

  /** The handlers that start with `if not self.isChair(nick): return`. */
  predicate ChairOnly(h: Handler) {
    !(h.ReplayCmd? || h.StartMeetingCmd? || h.PrivateCommandsCmd? || h.ActionCmd? || h.InfoCmd?
      || h.IdeaCmd? || h.HelpCmd? || h.NickCmd? || h.LinkCmd? || h.CommandsCmd?)
  }

  /** do_private_commands' message: every '#'-command, sorted. */
  function PrivateCommandsMessage(): string {
    "Available commands: " + Join(", ", SortBy(Hashed(CommandTable), StringOrder()))
  }

  /** Each command name of the table with its '#'. */
  function Hashed(table: seq<(string, Handler)>): (r: seq<string>)
    ensures |r| == |table|
    ensures forall k | 0 <= k < |table| :: r[k] == "#" + table[k].0
    decreases |table|
  {
    if table == [] then [] else Hashed(table[..|table| - 1]) + ["#" + table[|table| - 1].0]
  }

  /** do_commands' message. */
  const CommandsMessage: string := "Available commands: action, commands, idea, info, link, nick"

  /** Config.UrlProtocols. */
  const UrlProtocols: seq<string> := ["http:", "https:", "irc:", "ftp:", "mailto:", "ssh:"]

  /** `line.split('//')[0] in UrlProtocols`: the text before the first `//` is a protocol. */
  predicate IsUrlLine(line: string, protocols: seq<string>) {
    Split(line, "//")[0] in protocols
  }

  /**
   * With protocols that contain no '/', a line is a link exactly when it is
   * a protocol followed by `//` or is a bare protocol name.
   */
  lemma {:induction false} UrlLineShape(line: string, protocols: seq<string>)
    requires forall p | p in protocols :: '/' !in p
    ensures IsUrlLine(line, protocols) <==>
      exists p | p in protocols :: line == p || StartsWith(line, p + "//")
  {
    var head := Split(line, "//")[0];
    if IsUrlLine(line, protocols) {
      match FindFrom(line, "//", 0)
      case None =>
        assert head == line;
      case Some(i) =>
        assert head == line[..i];
        assert line[i..i + 2] == "//";
        assert line == head + "//" + line[i + 2..];
        assert StartsWith(line, head + "//");
    }
    forall p | p in protocols && (line == p || StartsWith(line, p + "//"))
      ensures head == p
    {
      if line == p {
        NoSlashNoSeparator(line);
      } else {
        SeparatorAfterPrefix(line, p);
      }
    }
  }

  lemma NoSlashNoSeparator(line: string)
    requires '/' !in line
    ensures FindFrom(line, "//", 0).None?
    ensures Split(line, "//") == [line]
  {
    forall j: nat | j + 2 <= |line| ensures !OccursAt(line, "//", j) {
      assert line[j] in line;
      assert line[j..j + 2][0] == line[j];
    }
  }

  lemma SeparatorAfterPrefix(line: string, p: string)
    requires '/' !in p && StartsWith(line, p + "//")
    ensures FindFrom(line, "//", 0) == Some(|p|)
    ensures Split(line, "//")[0] == p
  {
    assert line[|p|..|p| + 2] == (p + "//")[|p|..];
    assert OccursAt(line, "//", |p|);
    forall j: nat | j < |p| ensures !OccursAt(line, "//", j) {
      assert line[j] == p[j];
      assert p[j] in p;
    }
    assert line[..|p|] == p;
  }

  /** `re.match(pfx + r'\b', s)` for a prefix ending in a digit. */
  predicate VoteToken(s: string, pfx: string) {
    StartsWith(s, pfx) && (|s| == |pfx| || !IsWordChar(s[|pfx|]))
  }

  /** re.match(r'([+-]1|[+-]?0)\b', s): the text casts a vote. */
  predicate VoteShaped(s: string) {
    VoteToken(s, "+1") || VoteToken(s, "-1") || VoteToken(s, "+0") || VoteToken(s, "-0")
    || VoteToken(s, "0")
  }

  datatype VoteKind = For | Against | Abstain | NoVote

  /** do_endvote's classification: `\+1\b`, then `-1\b`, then `[+-]?0\b`. */
  function Classify(v: string): (k: VoteKind)
    ensures k != NoVote <==> VoteShaped(v)
    ensures k == For ==> StartsWith(v, "+1")
    ensures k == Against ==> StartsWith(v, "-1")
    ensures k == Abstain ==> StartsWith(v, "0") || StartsWith(v, "+0") || StartsWith(v, "-0")
  {
    if VoteToken(v, "+1") then For
    else if VoteToken(v, "-1") then Against
    else if VoteToken(v, "+0") || VoteToken(v, "-0") || VoteToken(v, "0") then Abstain
    else NoVote
  }

  /** '%s' % x for an Optional str: None prints as "None". */
  function PyStr(x: Option<string>): string {
    if x.Some? then x.value else "None"
  }

  /** The channel topic settopic sets. */
  function TopicText(oldtopic: Option<string>, meetingTopic: Option<string>, current: string): string {
    if meetingTopic.Some? && meetingTopic.value != "" then
      var mt := meetingTopic.value;
      if Contains(Lower(mt), "meeting") then
        PyStr(oldtopic) + " | " + mt + " | Current topic: " + current
      else
        PyStr(oldtopic) + " | " + mt + " Meeting | Current topic: " + current
    else current
  }

  /** Without a meeting topic the channel topic is the current topic alone. */
  lemma TopicTextPlain(oldtopic: Option<string>, meetingTopic: Option<string>, current: string)
    requires meetingTopic.None? || meetingTopic.value == ""
    ensures TopicText(oldtopic, meetingTopic, current) == current
  {
  }

  /**
   * With a meeting topic the channel topic starts with the old topic and the
   * meeting topic, ends with " | Current topic: " and the current topic, and
   * reads "meeting" (in any case) before the current topic.
   */
  lemma TopicTextShape(oldtopic: Option<string>, mt: string, current: string)
    requires mt != ""
    ensures var t := TopicText(oldtopic, Some(mt), current);
      EndsWith(t, " | Current topic: " + current)
      && StartsWith(t, PyStr(oldtopic) + " | " + mt)
      && Contains(Lower(t[..|t| - |current|]), "meeting")
  {
    var o := PyStr(oldtopic);
    var pre := o + " | " + mt;
    var tail := " | Current topic: ";
    var t := TopicText(oldtopic, Some(mt), current);
    if Contains(Lower(mt), "meeting") {
      assert t == pre + tail + current;
      Framed(pre, pre, tail, current);
      MeetingInside(o + " | ", mt, tail);
      assert t[..|t| - |current|] == o + " | " + mt + tail;
    } else {
      var head := pre + " Meeting";
      assert head + tail == pre + " Meeting | Current topic: ";
      assert t == head + tail + current;
      assert StartsWith(head, pre);
      Framed(pre, head, tail, current);
      MeetingWord(pre, tail);
      assert t[..|t| - |current|] == pre + " Meeting" + tail;
    }
  }

  /** head + tail + current, cut at the current topic, with its ends. */
  lemma Framed(pre: string, head: string, tail: string, current: string)
    requires StartsWith(head, pre)
    ensures var t := head + tail + current;
      EndsWith(t, tail + current) && StartsWith(t, pre) && t[..|t| - |current|] == head + tail
  {
    var t := head + tail + current;
    assert t == head + (tail + current);
    assert t[..|pre|] == head[..|pre|];
  }

  lemma MeetingInside(a: string, mt: string, b: string)
    requires Contains(Lower(mt), "meeting")
    ensures Contains(Lower(a + mt + b), "meeting")
  {
    var j: nat :| j <= |Lower(mt)| && OccursAt(Lower(mt), "meeting", j);
    LowerAppend(a + mt, b);
    LowerAppend(a, mt);
    var l := Lower(a) + Lower(mt) + Lower(b);
    assert Lower(a + mt + b) == l;
    assert l[|a| + j..|a| + j + 7] == Lower(mt)[j..j + 7];
    assert OccursAt(l, "meeting", |a| + j);
  }

  lemma MeetingWord(pre: string, b: string)
    ensures Contains(Lower(pre + " Meeting" + b), "meeting")
  {
    var s := pre + " Meeting" + b;
    assert s[|pre| + 1..|pre| + 8] == "Meeting";
    var l := Lower(s);
    assert l[|pre| + 1..|pre| + 8] == "meeting";
    assert OccursAt(l, "meeting", |pre| + 1);
  }

  lemma LowerAppend(a: string, b: string)
    ensures Lower(a + b) == Lower(a) + Lower(b)
  {
  }

  /** do_meetingname's normalisation: "_".join(line.lower().split()). */
  function MeetingName(line: string): string {
    Join("_", SplitWhitespace(Lower(line)))
  }

  /** A normalised meeting name has no whitespace and is already lower case. */
  lemma {:induction false} MeetingNameNormal(line: string)
    ensures forall c | c in MeetingName(line) :: !IsSpace(c)
    ensures Lower(MeetingName(line)) == MeetingName(line)
  {
    var parts := SplitWhitespace(Lower(line));
    forall k | 0 <= k < |parts| ensures forall c | c in parts[k] :: LowerChar(c) == c {
      LowerPieces(line, parts, k);
    }
    JoinClean(parts);
  }

  /** Every piece of Lower(line).split() is made of characters Lower leaves alone. */
  lemma LowerPieces(line: string, parts: seq<string>, k: nat)
    requires parts == SplitWhitespace(Lower(line)) && k < |parts|
    ensures forall c | c in parts[k] :: LowerChar(c) == c
  {
    forall c | c in parts[k] ensures LowerChar(c) == c {
      SplitWhitespaceChars(Lower(line), k, c);
    }
  }

  lemma {:induction false} SplitWhitespaceChars(s: string, k: nat, c: char)
    requires k < |SplitWhitespace(s)| && c in SplitWhitespace(s)[k]
    ensures c in s
    decreases |s|
  {
    var i := SkipWhile(s, 0, IsSpace);
    var j := SkipWhile(s, i, NotSpace);
    var parts := SplitWhitespace(s);
    assert parts == [s[i..j]] + SplitWhitespace(s[j..]);
    if k == 0 {
      assert c in s[i..j];
    } else {
      SplitWhitespaceChars(s[j..], k - 1, c);
    }
  }

  /** Joining clean pieces with "_" gives a clean string. */
  lemma {:induction false} JoinClean(parts: seq<string>)
    requires forall k | 0 <= k < |parts| :: forall c | c in parts[k] :: !IsSpace(c) && LowerChar(c) == c
    ensures forall c | c in Join("_", parts) :: !IsSpace(c)
    ensures Lower(Join("_", parts)) == Join("_", parts)
  {
    if |parts| > 1 {
      JoinClean(parts[1..]);
      assert Join("_", parts) == parts[0] + "_" + Join("_", parts[1..]);
    }
  }

  // ---------------------------------------------------------------------
  // Python's int(str), as do_votesrequired applies it to the argument.

  /** Digits with single underscores between them, as int() accepts. */
  predicate DigitGroups(b: string) {
    b != [] && IsDigit(b[0]) && IsDigit(b[|b| - 1]) && GroupChars(b)
  }

  /** Only digits and underscores, never two underscores in a row. */
  predicate GroupChars(b: string)
    decreases |b|
  {
    b == [] || ((IsDigit(b[0]) || b[0] == '_') && !(|b| >= 2 && b[0] == '_' && b[1] == '_') && GroupChars(b[1..]))
  }

  lemma {:induction false} DigitsGroupChars(t: string)
    requires AllDigits(t)
    ensures GroupChars(t)
    decreases |t|
  {
    if t != [] {
      assert AllDigits(t[1..]) by { assert forall k | 0 <= k < |t| - 1 :: t[1..][k] == t[k + 1]; }
      DigitsGroupChars(t[1..]);
    }
  }

  /** The value of a decimal digit. */
  function DigitOf(c: char): int {
    c as int - '0' as int
  }

  /** The value of a string of decimal digits. */
  function DigitsValue(ds: string): int
  {
    if ds == [] then 0
    else 10 * DigitsValue(ds[..|ds| - 1]) + DigitOf(ds[|ds| - 1])
  }

  function DropUnderscores(b: string): (r: string)
  {
    if b == [] then [] else (if b[0] == '_' then [] else [b[0]]) + DropUnderscores(b[1..])
  }

  /** int(s): Some(value), or None where Python raises ValueError. */
  function ParseInt(s: string): (r: Option<int>)
  {
    ParseStripped(StripSpace(s))
  }

  /** int() once the surrounding whitespace is gone: an optional sign, then digit groups. */
  function ParseStripped(t: string): (r: Option<int>)
  {
    var neg := t != [] && t[0] == '-';
    var body := if t != [] && (t[0] == '-' || t[0] == '+') then t[1..] else t;
    if DigitGroups(body) then
      var v: int := DigitsValue(DropUnderscores(body));
      Some(if neg then -v else v)
    else None
  }

  lemma {:induction false} DigitsOfNat(n: nat)
    ensures DigitsValue(NatToString(n)) == n
  {
    if n >= 10 {
      var ds := NatToString(n);
      assert ds == NatToString(n / 10) + [('0' as int + n % 10) as char];
      assert ds[..|ds| - 1] == NatToString(n / 10);
      DigitsOfNat(n / 10);
    }
  }

  lemma {:induction false} DropUnderscoresDigits(b: string)
    requires AllDigits(b)
    ensures DropUnderscores(b) == b
  {
    if b != [] {
      assert AllDigits(b[1..]) by { assert forall k | 0 <= k < |b| - 1 :: b[1..][k] == b[k + 1]; }
      DropUnderscoresDigits(b[1..]);
      assert b == [b[0]] + b[1..];
    }
  }

  /** int() reads back what '%d' prints. */
  lemma ParseIntRoundTrip(i: int)
    ensures ParseInt(IntToString(i)) == Some(i)
  {
    if i >= 0 {
      NonNegativeRoundTrip(i);
    } else {
      NegativeRoundTrip(i);
    }
  }

  lemma NonNegativeRoundTrip(i: int)
    requires i >= 0
    ensures ParseInt(IntToString(i)) == Some(i)
  {
    DigitsOfNat(i);
    ParseIntUnsigned(NatToString(i));
  }

  lemma NegativeRoundTrip(i: int)
    requires i < 0
    ensures ParseInt(IntToString(i)) == Some(i)
  {
    var n: nat := -i;
    var ds := NatToString(n);
    assert IntToString(i) == "-" + ds;
    NegativeDigits(n);
  }

  lemma NegativeDigits(n: nat)
    ensures ParseInt("-" + NatToString(n)) == Some(-(n as int))
  {
    var t := NatToString(n);
    DigitsOfNat(n);
    ParseIntNegative(t);
    assert -DigitsValue(t) == -(n as int);
  }

  lemma DigitsAreGroups(t: string)
    requires t != [] && AllDigits(t)
    ensures DigitGroups(t)
    ensures DropUnderscores(t) == t
  {
    DigitsGroupChars(t);
    DropUnderscoresDigits(t);
  }

  lemma ParseIntUnsigned(t: string)
    requires t != [] && AllDigits(t)
    ensures ParseInt(t) == Some(DigitsValue(t))
  {
    DigitsAreGroups(t);
    NoSpaceStrip(t);
  }

  lemma ParseIntNegative(t: string)
    requires t != [] && AllDigits(t)
    ensures ParseInt("-" + t) == Some(-DigitsValue(t))
  {
    DigitsAreGroups(t);
    NegativeStripped(t);
    ParseIntSigned(t);
  }

  /** A '-' followed by digits has no surrounding space. */
  lemma NegativeStripped(t: string)
    requires t != [] && AllDigits(t)
    ensures StripSpace("-" + t) == "-" + t
  {
    var s := "-" + t;
    forall k | 0 <= k < |s| ensures IsDigit(s[k]) || s[k] == '-' {
      if k > 0 { assert s[k] == t[k - 1]; }
    }
    NoSpaceStrip(s);
  }

  /** int() of a stripped '-' followed by digit groups. */
  lemma ParseIntSigned(t: string)
    requires DigitGroups(t) && DropUnderscores(t) == t
    ensures ParseStripped("-" + t) == Some(-DigitsValue(t))
  {
    var s := "-" + t;
    assert s[0] == '-' && s[1..] == t;
  }

  lemma NoSpaceStrip(s: string)
    requires s != [] && forall k | 0 <= k < |s| :: IsDigit(s[k]) || s[k] == '-'
    ensures StripSpace(s) == s
  {
    var c0, cn := s[0], s[|s| - 1];
    assert IsDigit(c0) || c0 == '-';
    assert !IsSpace(c0);
    assert SkipWhile(s, 0, IsSpace) == 0;
    assert LStrip(s, IsSpace) == s;
    assert IsDigit(cn) || cn == '-';
    assert !IsSpace(cn);
    assert TrimEnd(s, IsSpace) == |s|;
    assert RStrip(s, IsSpace) == s;
  }
}
