// The plain-text writers: the minutes lists of the ReST, Text, MediaWiki and
// MoinMoin writers, their headings, and MoinMoin's vote results.  An item's
// own rendering (m.rst, m.text, m.mw, m.moin) is the parameter `render`;
// wrapList is taken to add the indent only.
module WikiText {
  import opened Wrappers
  import opened Strings
  import opened Items
  import opened Dicts
  import opened MinutesTemplate

  // ---- headings ----

  /** Text.heading: the name, underlined with a dash per character. */
  function TextHeading(name: string): string {
    name + "\n" + Repeat('-', |name|) + "\n"
  }

  /** Read line by line, a Text heading is the name and an underline of dashes exactly as long. */
  lemma TextHeadingLines(name: string)
    requires '\n' !in name
    ensures var ls := Split(TextHeading(name), "\n");
      |ls| == 3 && ls[0] == name && ls[2] == ""
      && |ls[1]| == |name| && forall i | 0 <= i < |ls[1]| :: ls[1][i] == '-'
  {
    var u := Repeat('-', |name|);
    assert '\n' !in u;
    SplitWithoutChar("", '\n');
    SplitAtChar(u, '\n', "");
    SplitAtChar(name, '\n', u + "\n");
    assert u + "\n" == u + ['\n'] + "";
    assert TextHeading(name) == name + ['\n'] + (u + "\n");
  }

  /** MediaWiki.heading, which Moin.heading repeats: the name between two runs of level + 1 '='. */
  function WikiHeading(name: string, level: nat): string {
    Repeat('=', level + 1) + " " + name + " " + Repeat('=', level + 1) + "\n"
  }

  /** PmWiki.heading: level + 1 '!' before the name. */
  function PmWikiHeading(name: string, level: nat): string {
    Repeat('!', level + 1) + " " + name + "\n"
  }

  /** The length of the run of `c` that `s` starts with. */
  function LeadingRun(s: string, c: char): (n: nat)
    ensures n <= |s|
    decreases |s|
  {
    if s != [] && s[0] == c then 1 + LeadingRun(s[1..], c) else 0
  }

  lemma {:induction false} LeadingRunOf(c: char, n: nat, rest: string)
    requires rest != [] && rest[0] != c
    ensures LeadingRun(Repeat(c, n) + rest, c) == n
    decreases n
  {
    if n > 0 {
      assert (Repeat(c, n) + rest)[1..] == Repeat(c, n - 1) + rest;
      LeadingRunOf(c, n - 1, rest);
    }
  }

  /**
   * The level of a wiki heading is read back from its leading run of '=',
   * the name sits between the runs, and the closing run mirrors the opening one.
   */
  lemma WikiHeadingReadBack(name: string, level: nat)
    ensures var h := WikiHeading(name, level); var n := LeadingRun(h, '=');
      n == level + 1 && |h| == 2 * n + |name| + 3
      && h[n + 1..n + 1 + |name|] == name && h[n + 2 + |name|..|h| - 1] == h[..n]
  {
    var run := Repeat('=', level + 1);
    var h := WikiHeading(name, level);
    assert h == run + (" " + name + " " + run + "\n");
    LeadingRunOf('=', level + 1, " " + name + " " + run + "\n");
    assert h[level + 2..level + 2 + |name|] == name;
    assert h[level + 3 + |name|..|h| - 1] == run;
  }

  /** The level of a PmWiki heading is read back from its leading run of '!', the name follows it. */
  lemma PmWikiHeadingReadBack(name: string, level: nat)
    ensures var h := PmWikiHeading(name, level); var n := LeadingRun(h, '!');
      n == level + 1 && h[n + 1..|h| - 1] == name && h[|h| - 1] == '\n'
  {
    var run := Repeat('!', level + 1);
    var h := PmWikiHeading(name, level);
    assert h == run + (" " + name + "\n");
    LeadingRunOf('!', level + 1, " " + name + "\n");
    assert h[level + 2..|h| - 1] == name;
  }

  // ---- the ReST, Text and MediaWiki minutes lists ----

  /** How an item under a topic is set off: two more spaces (ReST, Text) or a second '*' (MediaWiki). */
  datatype ListStyle = Indented | Starred

  function Nested(style: ListStyle, entry: string): string {
    match style
    case Indented => "  " + entry
    case Starred => "*" + entry
  }

  /** What one item appends and haveTopic after it. */
  function ListStep(style: ListStyle, haveTopic: bool, m: Item, render: Item -> string): (seq<string>, bool) {
    var entry := "* " + render(m);
    if m.itemtype == TopicItem then ((if haveTopic then [""] else []) + [entry], true)
    else ([if haveTopic then Nested(style, entry) else entry], haveTopic)
  }

  /** The loop over the minutes: the lines so far and the flag. */
  function ListRun(style: ListStyle, ms: seq<Item>, render: Item -> string): (seq<string>, bool)
    decreases |ms|
  {
    if ms == [] then ([], false)
    else
      var run := ListRun(style, ms[..|ms| - 1], render);
      var step := ListStep(style, run.1, ms[|ms| - 1], render);
      (run.0 + step.0, step.1)
  }

  function ListLines(style: ListStyle, ms: seq<Item>, render: Item -> string): seq<string> {
    ListRun(style, ms, render).0
  }

  /** The number of TOPIC items. */
  function Topics(ms: seq<Item>): nat
    decreases |ms|
  {
    if ms == [] then 0 else Topics(ms[..|ms| - 1]) + (if ms[|ms| - 1].itemtype == TopicItem then 1 else 0)
  }

  lemma {:induction false} ListFlag(style: ListStyle, ms: seq<Item>, render: Item -> string)
    ensures ListRun(style, ms, render).1 <==> Topics(ms) > 0
    decreases |ms|
  {
    if ms != [] {
      ListFlag(style, ms[..|ms| - 1], render);
    }
  }

  /**
   * Item i adds, after the lines of the items before it: an empty line if
   * it is a TOPIC and an earlier item was one; then its entry, set off as
   * nested exactly when it is no TOPIC and comes after one.
   */
  lemma ListLinesAt(style: ListStyle, ms: seq<Item>, i: nat, render: Item -> string)
    requires i < |ms|
    ensures var entry := "* " + render(ms[i]);
      var after := Topics(ms[..i]) > 0;
      ListLines(style, ms[..i + 1], render)
      == ListLines(style, ms[..i], render)
         + (if ms[i].itemtype == TopicItem && after then [""] else [])
         + [if ms[i].itemtype != TopicItem && after then Nested(style, entry) else entry]
  {
    assert ms[..i + 1][..i] == ms[..i];
    ListFlag(style, ms[..i], render);
  }

  /** The lines that are not blank. */
  function Entries(lines: seq<string>): seq<string>
    decreases |lines|
  {
    if lines == [] then []
    else Entries(lines[..|lines| - 1]) + (if lines[|lines| - 1] == "" then [] else [lines[|lines| - 1]])
  }

  lemma {:induction false} EntriesAppend(a: seq<string>, b: seq<string>)
    ensures Entries(a + b) == Entries(a) + Entries(b)
    decreases |b|
  {
    if b == [] {
      assert a + b == a;
    } else {
      assert (a + b)[..|a + b| - 1] == a + b[..|b| - 1];
      EntriesAppend(a, b[..|b| - 1]);
    }
  }

  /** Item i's entry: its rendering after "* ", nested exactly when it is no TOPIC and a TOPIC came before it. */
  function EntryOf(style: ListStyle, ms: seq<Item>, i: nat, render: Item -> string): string
    requires i < |ms|
  {
    if ms[i].itemtype != TopicItem && Topics(ms[..i]) > 0 then Nested(style, "* " + render(ms[i])) else "* " + render(ms[i])
  }

  lemma EntriesStep(style: ListStyle, ms: seq<Item>, i: nat, render: Item -> string)
    requires i < |ms|
    ensures Entries(ListLines(style, ms[..i + 1], render)) == Entries(ListLines(style, ms[..i], render)) + [EntryOf(style, ms, i, render)]
  {
    var a := ListLines(style, ms[..i], render);
    var sep: seq<string> := if ms[i].itemtype == TopicItem && Topics(ms[..i]) > 0 then [""] else [];
    var last := EntryOf(style, ms, i, render);
    assert ListLines(style, ms[..i + 1], render) == a + sep + [last] by {
      ListLinesAt(style, ms, i, render);
    }
    assert last != "" by {
      assert ("* " + render(ms[i]))[0] == '*';
    }
    assert Entries(a + sep) == Entries(a) by {
      EntriesAppend(a, sep);
      if sep != [] { EntriesSingle(""); }
    }
    EntriesAppend(a + sep, [last]);
    EntriesSingle(last);
  }

  lemma EntriesSingle(line: string)
    ensures Entries([line]) == if line == "" then [] else [line]
  {
    assert [line][..0] == [];
  }

  /** Without the blank separators the list has one entry per item, in order. */
  lemma {:induction false} ListEntries(style: ListStyle, ms: seq<Item>, render: Item -> string)
    ensures var es := Entries(ListLines(style, ms, render));
      |es| == |ms| && forall i | 0 <= i < |ms| :: es[i] == EntryOf(style, ms, i, render)
    decreases |ms|
  {
    if ms != [] {
      var n := |ms| - 1;
      var front := ms[..n];
      ListEntries(style, front, render);
      EntriesStep(style, ms, n, render);
      assert ms[..n + 1] == ms;
      forall i | 0 <= i < n ensures EntryOf(style, front, i, render) == EntryOf(style, ms, i, render) {
        assert ms[..i] == front[..i];
      }
    }
  }

  /** The empty lines are the separators: one before every TOPIC but the first. */
  lemma ListSeparators(style: ListStyle, ms: seq<Item>, render: Item -> string)
    ensures multiset(ListLines(style, ms, render))[""] == if Topics(ms) == 0 then 0 else Topics(ms) - 1
  {
    ListSeparatorCount(style, ms, render);
    ListFlag(style, ms, render);
  }

  lemma {:induction false} ListSeparatorCount(style: ListStyle, ms: seq<Item>, render: Item -> string)
    ensures multiset(ListRun(style, ms, render).0)[""] + (if ListRun(style, ms, render).1 then 1 else 0) == Topics(ms)
    decreases |ms|
  {
    if ms != [] {
      ListSeparatorCount(style, ms[..|ms| - 1], render);
      var m := ms[|ms| - 1];
      var entry := "* " + render(m);
      assert entry != "" && Nested(style, entry) != "" by {
        assert entry[0] == '*';
      }
    }
  }

  /** The loop of ReST.format, Text.meetingItems and MediaWiki.meetingItems. */
  method ListItems(style: ListStyle, ms: seq<Item>, render: Item -> string) returns (lines: seq<string>)
    ensures lines == ListLines(style, ms, render)
  {
    lines := [];
    var haveTopic := false;
    var i := 0;
    while i < |ms|
      invariant 0 <= i <= |ms|
      invariant lines == ListRun(style, ms[..i], render).0
      invariant haveTopic == ListRun(style, ms[..i], render).1
    {
      assert ms[..i + 1][..i] == ms[..i];
      var m := ms[i];
      ghost var step := ListStep(style, haveTopic, m, render);
      ghost var before := lines;
      var entry := "* " + render(m);
      if m.itemtype == TopicItem {
        if haveTopic {
          lines := lines + [""];
        }
        haveTopic := true;
      } else if haveTopic {
        entry := Nested(style, entry);
      }
      lines := lines + [entry];
      assert lines == before + step.0 && haveTopic == step.1;
      i := i + 1;
    }
    assert ms[..|ms|] == ms;
  }

  /** ReST.format's MeetingItems: the list with blank lines between entries, then the item links `urls`. */
  function RestItemsText(ms: seq<Item>, render: Item -> string, urls: seq<string>): string {
    Join("\n\n", ListLines(Indented, ms, render)) + "\n\n" + Join("\n", urls)
  }

  method RestItems(ms: seq<Item>, render: Item -> string, urls: seq<string>) returns (text: string)
    ensures text == RestItemsText(ms, render, urls)
  {
    var lines := ListItems(Indented, ms, render);
    text := Join("\n\n", lines) + "\n\n" + Join("\n", urls);
  }

  function TextItemsText(ms: seq<Item>, render: Item -> string): string {
    Join("\n", [TextHeading("Meeting summary")] + ListLines(Indented, ms, render))
  }

  /** Text.meetingItems. */
  method TextMeetingItems(ms: seq<Item>, render: Item -> string) returns (text: string)
    ensures text == TextItemsText(ms, render)
  {
    var lines := ListItems(Indented, ms, render);
    text := Join("\n", [TextHeading("Meeting summary")] + lines);
  }

  function MediaWikiItemsText(ms: seq<Item>, render: Item -> string): string {
    Join("\n", [WikiHeading("Meeting summary", 1)] + ListLines(Starred, ms, render))
  }

  /** MediaWiki.meetingItems, which PmWiki inherits with its own heading. */
  method MediaWikiMeetingItems(ms: seq<Item>, render: Item -> string) returns (text: string)
    ensures text == MediaWikiItemsText(ms, render)
  {
    var lines := ListItems(Starred, ms, render);
    text := Join("\n", [WikiHeading("Meeting summary", 1)] + lines);
  }

  // ---- the MoinMoin minutes list ----

  /** Moin.meetingItems' two flags. */
  datatype MoinFlags = MoinFlags(haveTopic: bool, haveSubtopic: bool)

  /** What one item appends and the flags after it. */
  function MoinStep(f: MoinFlags, m: Item, render: Item -> string): (seq<string>, MoinFlags) {
    var item := render(m);
    if m.itemtype == TopicItem then ((if f.haveTopic then [""] else []) + [item], MoinFlags(true, false))
    else if m.itemtype == SubtopicItem then ([" * " + item], f.(haveSubtopic := true))
    else ([(if f.haveSubtopic then "  * " else " * ") + item], f.(haveTopic := true))
  }

  function MoinRun(ms: seq<Item>, render: Item -> string): (seq<string>, MoinFlags)
    decreases |ms|
  {
    if ms == [] then ([], MoinFlags(false, false))
    else
      var run := MoinRun(ms[..|ms| - 1], render);
      var step := MoinStep(run.1, ms[|ms| - 1], render);
      (run.0 + step.0, step.1)
  }

  function MoinLines(ms: seq<Item>, render: Item -> string): seq<string> {
    MoinRun(ms, render).0
  }

  /** Some item is a TOPIC or a plain item: Moin counts either as having a topic. */
  predicate SomeNonSubtopic(ms: seq<Item>) {
    exists j | 0 <= j < |ms| :: ms[j].itemtype != SubtopicItem
  }

  /** A SUBTOPIC came after the last TOPIC. */
  predicate SubtopicSinceTopic(ms: seq<Item>) {
    exists j | 0 <= j < |ms| :: ms[j].itemtype == SubtopicItem && forall k | j < k < |ms| :: ms[k].itemtype != TopicItem
  }

  lemma MoinFlagsMean(ms: seq<Item>, render: Item -> string)
    ensures MoinRun(ms, render).1.haveTopic <==> SomeNonSubtopic(ms)
    ensures MoinRun(ms, render).1.haveSubtopic <==> SubtopicSinceTopic(ms)
  {
    MoinTopicFlag(ms, render);
    MoinSubtopicFlag(ms, render);
  }

  lemma {:induction false} MoinTopicFlag(ms: seq<Item>, render: Item -> string)
    ensures MoinRun(ms, render).1.haveTopic <==> SomeNonSubtopic(ms)
    decreases |ms|
  {
    if ms != [] {
      var n := |ms| - 1;
      MoinTopicFlag(ms[..n], render);
      assert forall j | 0 <= j < n :: ms[..n][j] == ms[j];
      if ms[n].itemtype != SubtopicItem {
        assert SomeNonSubtopic(ms);
      }
    }
  }

  lemma {:induction false} MoinSubtopicFlag(ms: seq<Item>, render: Item -> string)
    ensures MoinRun(ms, render).1.haveSubtopic <==> SubtopicSinceTopic(ms)
    decreases |ms|
  {
    if ms != [] {
      var n := |ms| - 1;
      MoinSubtopicFlag(ms[..n], render);
      if ms[n].itemtype == SubtopicItem {
        assert SubtopicSinceTopic(ms);
      } else if ms[n].itemtype != TopicItem {
        SubtopicSincePlain(ms);
      }
    }
  }

  /** A plain item keeps the answer of the items before it. */
  lemma SubtopicSincePlain(ms: seq<Item>)
    requires ms != [] && ms[|ms| - 1].itemtype != TopicItem && ms[|ms| - 1].itemtype != SubtopicItem
    ensures SubtopicSinceTopic(ms) <==> SubtopicSinceTopic(ms[..|ms| - 1])
  {
    var n := |ms| - 1;
    var front := ms[..n];
    if SubtopicSinceTopic(front) {
      var j :| 0 <= j < n && front[j].itemtype == SubtopicItem && forall k | j < k < n :: front[k].itemtype != TopicItem;
      assert ms[j].itemtype == SubtopicItem && forall k | j < k < |ms| :: ms[k].itemtype != TopicItem;
    }
    if SubtopicSinceTopic(ms) {
      var j :| 0 <= j < |ms| && ms[j].itemtype == SubtopicItem && forall k | j < k < |ms| :: ms[k].itemtype != TopicItem;
      assert j < n && front[j].itemtype == SubtopicItem && forall k | j < k < n :: front[k].itemtype != TopicItem;
    }
  }

  /**
   * Item i adds, after the lines of the items before it: for a TOPIC an
   * empty line when an earlier item was no SUBTOPIC, then its bare
   * rendering; for a SUBTOPIC a first-level bullet; for any other item a
   * second-level bullet exactly when a SUBTOPIC came after the last TOPIC.
   */
  lemma MoinLinesAt(ms: seq<Item>, i: nat, render: Item -> string)
    requires i < |ms|
    ensures var t := ms[i].itemtype; var item := render(ms[i]);
      MoinLines(ms[..i + 1], render)
      == MoinLines(ms[..i], render)
         + (if t == TopicItem && SomeNonSubtopic(ms[..i]) then [""] else [])
         + [if t == TopicItem then item
            else if t == SubtopicItem || !SubtopicSinceTopic(ms[..i]) then " * " + item
            else "  * " + item]
  {
    assert ms[..i + 1][..i] == ms[..i];
    MoinFlagsMean(ms[..i], render);
  }

  /** The loop of Moin.meetingItems. */
  method MoinItems(ms: seq<Item>, render: Item -> string) returns (lines: seq<string>)
    ensures lines == MoinLines(ms, render)
  {
    lines := [];
    var haveTopic := false;
    var haveSubtopic := false;
    var i := 0;
    while i < |ms|
      invariant 0 <= i <= |ms|
      invariant lines == MoinRun(ms[..i], render).0
      invariant MoinFlags(haveTopic, haveSubtopic) == MoinRun(ms[..i], render).1
    {
      assert ms[..i + 1][..i] == ms[..i];
      var m := ms[i];
      ghost var step := MoinStep(MoinFlags(haveTopic, haveSubtopic), m, render);
      ghost var before := lines;
      var item := render(m);
      if m.itemtype == TopicItem {
        if haveSubtopic {
          haveSubtopic := false;
        }
        if haveTopic {
          lines := lines + [""];
        }
        haveTopic := true;
      } else if m.itemtype == SubtopicItem {
        item := " * " + item;
        haveSubtopic := true;
      } else {
        if !haveTopic {
          haveTopic := true;
        }
        if haveSubtopic {
          item := "  * " + item;
        } else {
          item := " * " + item;
        }
      }
      lines := lines + [item];
      assert lines == before + step.0 && MoinFlags(haveTopic, haveSubtopic) == step.1;
      i := i + 1;
    }
    assert ms[..|ms|] == ms;
  }

  function MoinItemsText(ms: seq<Item>, render: Item -> string): string {
    Join("\n", [WikiHeading("Meeting summary", 1)] + MoinLines(ms, render))
  }

  /** Moin.meetingItems. */
  method MoinMeetingItems(ms: seq<Item>, render: Item -> string) returns (text: string)
    ensures text == MoinItemsText(ms, render)
  {
    var lines := MoinItems(ms, render);
    text := Join("\n", [WikiHeading("Meeting summary", 1)] + lines);
  }

  // ---- Moin.votes ----

  /** One vote's lines: the link to its line in the log, its outcome, its public voters if any. */
  function MoinVoteLines(row: VoteRow, link: string): seq<string> {
    [" * [[" + link + "#" + NatToString(row.linenum) + "|" + row.topic + "]]", "  * " + row.outcome]
    + (if row.voters != [] then ["   * Voters: " + Join(", ", row.voters)] else [])
  }

  function MoinVoteRows(rows: seq<VoteRow>, link: string): seq<string>
    decreases |rows|
  {
    if rows == [] then [] else MoinVoteRows(rows[..|rows| - 1], link) + MoinVoteLines(rows[|rows| - 1], link)
  }

  /** Moin.votes: the votes in dict order; `link` is the full-log URL the replacements give. */
  function MoinVotesText(votes: seq<(string, (string, nat))>, publicVoters: seq<(string, seq<string>)>, link: string): Option<string>
    requires VotersKnown(votes, publicVoters)
  {
    var lines := MoinVoteRows(VoteRows(votes, publicVoters), link);
    if lines == [] then None else Some(Join("\n", [WikiHeading("Vote results", 1)] + lines))
  }

  /** A vote's first line, the one that links to it. */
  predicate VoteLink(line: string) {
    StartsWith(line, " * [[")
  }

  /** The number of VoteLink lines. */
  function VoteLinks(lines: seq<string>): nat
    decreases |lines|
  {
    if lines == [] then 0 else VoteLinks(lines[..|lines| - 1]) + (if VoteLink(lines[|lines| - 1]) then 1 else 0)
  }

  /** The votes with public voters. */
  function Voted(rows: seq<VoteRow>): nat
    decreases |rows|
  {
    if rows == [] then 0 else Voted(rows[..|rows| - 1]) + (if rows[|rows| - 1].voters != [] then 1 else 0)
  }

  lemma {:induction false} VoteLinksAppend(a: seq<string>, b: seq<string>)
    ensures VoteLinks(a + b) == VoteLinks(a) + VoteLinks(b)
    decreases |b|
  {
    if b == [] {
      assert a + b == a;
    } else {
      assert (a + b)[..|a + b| - 1] == a + b[..|b| - 1];
      VoteLinksAppend(a, b[..|b| - 1]);
    }
  }

  lemma MoinVoteLinesLinks(row: VoteRow, link: string)
    ensures VoteLinks(MoinVoteLines(row, link)) == 1
  {
    var head := " * [[" + link + "#" + NatToString(row.linenum) + "|" + row.topic + "]]";
    var outcome := "  * " + row.outcome;
    assert head[..5] == " * [[";
    assert !VoteLink(outcome) by { assert outcome[1] == ' '; }
    VoteLinksAppend([head], [outcome]);
    assert [head][..0] == [] && [outcome][..0] == [];
    if row.voters != [] {
      var voters := "   * Voters: " + Join(", ", row.voters);
      assert !VoteLink(voters) by { assert voters[1] == ' '; }
      VoteLinksAppend([head, outcome], [voters]);
    }
  }

  /** Each vote writes one linking line and its outcome, and a third line when it has public voters. */
  lemma {:induction false} MoinVoteRowsShape(rows: seq<VoteRow>, link: string)
    ensures |MoinVoteRows(rows, link)| == 2 * |rows| + Voted(rows)
    ensures VoteLinks(MoinVoteRows(rows, link)) == |rows|
    decreases |rows|
  {
    if rows != [] {
      var front := rows[..|rows| - 1];
      MoinVoteRowsShape(front, link);
      MoinVoteLinesLinks(rows[|rows| - 1], link);
      VoteLinksAppend(MoinVoteRows(front, link), MoinVoteLines(rows[|rows| - 1], link));
    }
  }

  /** The block is missing exactly when there is no vote; otherwise it links every vote once. */
  lemma MoinVotesSpec(votes: seq<(string, (string, nat))>, publicVoters: seq<(string, seq<string>)>, link: string)
    requires VotersKnown(votes, publicVoters)
    ensures MoinVotesText(votes, publicVoters, link).None? <==> votes == []
    ensures var rows := VoteRows(votes, publicVoters);
      var lines := MoinVoteRows(rows, link);
      |lines| == 2 * |votes| + Voted(rows) && VoteLinks(lines) == |votes|
  {
    MoinVoteRowsShape(VoteRows(votes, publicVoters), link);
  }

  /** Moin.votes. */
  method MoinVotes(votes: seq<(string, (string, nat))>, publicVoters: seq<(string, seq<string>)>, link: string)
    returns (block: Option<string>)
    requires VotersKnown(votes, publicVoters)
    ensures block == MoinVotesText(votes, publicVoters, link)
  {
    ghost var rows := VoteRows(votes, publicVoters);
    var lines: seq<string> := [];
    var i := 0;
    while i < |votes|
      invariant 0 <= i <= |votes|
      invariant lines == MoinVoteRows(rows[..i], link)
    {
      assert rows[..i + 1][..i] == rows[..i];
      var (v, (vsum, vline)) := votes[i];
      var voters := Get(publicVoters, v);
      assert rows[i] == VoteRow(v, vsum, vline, voters) by { VoteRowsAt(votes, publicVoters, i); }
      lines := lines + [" * [[" + link + "#" + NatToString(vline) + "|" + v + "]]", "  * " + vsum];
      if voters != [] {
        lines := lines + ["   * Voters: " + Join(", ", voters)];
      }
      i := i + 1;
    }
    assert rows[..|votes|] == rows;
    if lines == [] {
      block := None;
    } else {
      block := Some(Join("\n", [WikiHeading("Vote results", 1)] + lines));
    }
  }
}
