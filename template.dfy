// What _BaseWriter offers every writer: the page title, the attendees by
// lines said, and get_template's grouping of the minutes into topic
// sections and of the action items by person.
module MinutesTemplate {
  import opened Wrappers
  import opened Strings
  import opened Dicts
  import opened Items
  import opened ActionGroups

  // ---- pagetitle ----

  /** _BaseWriter.pagetitle: an empty or missing meeting topic counts as none. */
  function PageTitle(channel: string, meetingTopic: Option<string>): (r: string) {
    if meetingTopic.Some? && meetingTopic.value != "" then
      var title := channel + ": " + meetingTopic.value;
      if !Contains(Lower(meetingTopic.value), "meeting") then title + " meeting" else title
    else channel + " meeting"
  }

  lemma LowerAppend(a: string, b: string)
    ensures Lower(a + b) == Lower(a) + Lower(b)
  {
    assert forall i | 0 <= i < |a + b| :: Lower(a + b)[i] == (Lower(a) + Lower(b))[i] by {
      forall i | 0 <= i < |a + b| ensures Lower(a + b)[i] == (Lower(a) + Lower(b))[i] {
        if i < |a| {
          assert (a + b)[i] == a[i];
        } else {
          assert (a + b)[i] == b[i - |a|];
        }
      }
    }
  }

  lemma ContainsAfter(a: string, b: string, sub: string)
    requires Contains(b, sub)
    ensures Contains(a + b, sub)
  {
    var j: nat :| j <= |b| && OccursAt(b, sub, j);
    assert (a + b)[|a| + j..|a| + j + |sub|] == b[j..j + |sub|];
    assert OccursAt(a + b, sub, |a| + j);
  }

  /** ... + " meeting" names a meeting, whatever comes before. */
  lemma EndsInMeeting(a: string)
    ensures Contains(Lower(a + " meeting"), "meeting")
  {
    LowerAppend(a, " meeting");
    assert Lower(" meeting") == " meeting";
    var b := " meeting";
    assert OccursAt(b, "meeting", 1) by { assert b[1..8] == "meeting"; }
    ContainsAfter(Lower(a), b, "meeting");
  }

  /** Every page title says "meeting", in some case. */
  lemma PageTitleSaysMeeting(channel: string, meetingTopic: Option<string>)
    ensures Contains(Lower(PageTitle(channel, meetingTopic)), "meeting")
  {
    if meetingTopic.Some? && meetingTopic.value != "" {
      var t := meetingTopic.value;
      var title := channel + ": " + t;
      if Contains(Lower(t), "meeting") {
        LowerAppend(channel + ": ", t);
        ContainsAfter(Lower(channel + ": "), Lower(t), "meeting");
      } else {
        EndsInMeeting(title);
      }
    } else {
      EndsInMeeting(channel);
    }
  }

  /** With a topic the title is `channel: topic`, extended by " meeting" exactly when the topic does not say "meeting". */
  lemma PageTitleWithTopic(channel: string, topic: string)
    requires topic != ""
    ensures StartsWith(PageTitle(channel, Some(topic)), channel + ": " + topic)
    ensures PageTitle(channel, Some(topic)) == channel + ": " + topic <==> Contains(Lower(topic), "meeting")
  {
    var title := channel + ": " + topic;
    assert (title + " meeting")[..|title|] == title;
  }

  // ---- iterNickCounts ----

  /** The key of sort(key=count, reverse=True): a larger count goes first. */
  function ByCount(): (le: ((string, nat), (string, nat)) -> bool)
    ensures TotalPreorder(le)
  {
    (a: (string, nat), b: (string, nat)) => a.1 >= b.1
  }

  /** iterNickCounts: the attendees with their line counts, most lines first. */
  function NickCounts(attendees: seq<(string, nat)>): seq<(string, nat)> {
    SortBy(attendees, ByCount())
  }

  /** Every attendee is listed exactly as often as in the dict (once), by non-increasing count. */
  lemma NickCountsSpec(attendees: seq<(string, nat)>)
    ensures multiset(NickCounts(attendees)) == multiset(attendees)
    ensures forall i, j | 0 <= i < j < |NickCounts(attendees)| :: NickCounts(attendees)[i].1 >= NickCounts(attendees)[j].1
  {
    SortBySorted(attendees, ByCount());
    var r := NickCounts(attendees);
    assert SortedBy(r, ByCount());
    forall i, j | 0 <= i < j < |r| ensures r[i].1 >= r[j].1 {
      assert ByCount()(r[i], r[j]);
    }
  }

  // ---- get_template: MeetingItems ----

  /** One entry of MeetingItems: a topic (None for the "Prologue" stand-in) and the items after it. */
  datatype Section = Section(topic: Option<Item>, items: seq<Item>)

  /** `nextTopic['topic']['nick'] or nextTopic['items']`: whether a finished section is appended. */
  predicate Kept(sec: Section) {
    (sec.topic.Some? && sec.topic.value.nick != "") || sec.items != []
  }

  /** The loop's state after a prefix of the minutes: the sections appended and `nextTopic`. */
  function SectionRun(ms: seq<Item>): (r: (seq<Section>, Section))
    decreases |ms|
  {
    if ms == [] then ([], Section(None, []))
    else
      var (done, next) := SectionRun(ms[..|ms| - 1]);
      var m := ms[|ms| - 1];
      if m.itemtype == TopicItem then ((if Kept(next) then done + [next] else done), Section(Some(m), []))
      else (done, next.(items := next.items + [m]))
  }

  /** MeetingItems: the sections appended, then the last `nextTopic`. */
  function Sections(ms: seq<Item>): seq<Section> {
    SectionRun(ms).0 + [SectionRun(ms).1]
  }

  function NonTopics(ms: seq<Item>): seq<Item>
    decreases |ms|
  {
    if ms == [] then []
    else NonTopics(ms[..|ms| - 1]) + (if ms[|ms| - 1].itemtype != TopicItem then [ms[|ms| - 1]] else [])
  }

  function TopicItems(ms: seq<Item>): seq<Item>
    decreases |ms|
  {
    if ms == [] then []
    else TopicItems(ms[..|ms| - 1]) + (if ms[|ms| - 1].itemtype == TopicItem then [ms[|ms| - 1]] else [])
  }

  /** The items of the sections, one after another. */
  function SectionItems(secs: seq<Section>): seq<Item>
    decreases |secs|
  {
    if secs == [] then [] else SectionItems(secs[..|secs| - 1]) + secs[|secs| - 1].items
  }

  /** The topics of the sections, the Prologue having none. */
  function SectionTopics(secs: seq<Section>): seq<Item>
    decreases |secs|
  {
    if secs == [] then []
    else
      var last := secs[|secs| - 1];
      SectionTopics(secs[..|secs| - 1]) + (if last.topic.Some? then [last.topic.value] else [])
  }

  lemma SectionItemsAppend(secs: seq<Section>, sec: Section)
    ensures SectionItems(secs + [sec]) == SectionItems(secs) + sec.items
  {
    assert (secs + [sec])[..|secs|] == secs;
  }

  lemma SectionTopicsAppend(secs: seq<Section>, sec: Section)
    ensures SectionTopics(secs + [sec]) == SectionTopics(secs) + (if sec.topic.Some? then [sec.topic.value] else [])
  {
    assert (secs + [sec])[..|secs|] == secs;
  }

  lemma {:induction false} SectionRunItems(ms: seq<Item>)
    ensures SectionItems(SectionRun(ms).0) + SectionRun(ms).1.items == NonTopics(ms)
    decreases |ms|
  {
    if ms != [] {
      var front := ms[..|ms| - 1];
      SectionRunItems(front);
      var (done, next) := SectionRun(front);
      if ms[|ms| - 1].itemtype == TopicItem && Kept(next) {
        SectionItemsAppend(done, next);
      }
    }
  }

  /** Every item that is not a topic lands in exactly one section, in minutes order. */
  lemma SectionsPartition(ms: seq<Item>)
    ensures SectionItems(Sections(ms)) == NonTopics(ms)
  {
    SectionRunItems(ms);
    SectionItemsAppend(SectionRun(ms).0, SectionRun(ms).1);
  }

  /** No topic item has an empty nick (IRC nicks are never empty). */
  predicate NamedTopics(ms: seq<Item>) {
    forall k | 0 <= k < |ms| && ms[k].itemtype == TopicItem :: ms[k].nick != ""
  }

  lemma {:induction false} SectionRunTopics(ms: seq<Item>)
    requires NamedTopics(ms)
    ensures SectionTopics(SectionRun(ms).0 + [SectionRun(ms).1]) == TopicItems(ms)
    decreases |ms|
  {
    if ms != [] {
      var front := ms[..|ms| - 1];
      assert NamedTopics(front) by {
        forall k | 0 <= k < |front| && front[k].itemtype == TopicItem ensures front[k].nick != "" {
          assert front[k] == ms[k];
        }
      }
      SectionRunTopics(front);
      var (done, next) := SectionRun(front);
      var m := ms[|ms| - 1];
      SectionTopicsAppend(done, next);
      if m.itemtype == TopicItem {
        var done1 := if Kept(next) then done + [next] else done;
        SectionTopicsAppend(done1, Section(Some(m), []));
        if Kept(next) {
          SectionTopicsAppend(done, next);
        } else {
          assert next.topic.None?;
        }
      } else {
        SectionTopicsAppend(done, next.(items := next.items + [m]));
      }
    }
  }

  /** With named topics, the sections carry the topic items in minutes order, one each. */
  lemma SectionsTopics(ms: seq<Item>)
    requires NamedTopics(ms)
    ensures SectionTopics(Sections(ms)) == TopicItems(ms)
  {
    SectionRunTopics(ms);
  }

  /** Only the first section can be the Prologue. */
  predicate PrologueOnlyFirst(secs: seq<Section>) {
    forall k | 0 < k < |secs| :: secs[k].topic.Some?
  }

  lemma {:induction false} SectionRunPrologue(ms: seq<Item>)
    ensures PrologueOnlyFirst(SectionRun(ms).0 + [SectionRun(ms).1])
    ensures (SectionRun(ms).0 + [SectionRun(ms).1])[0].topic.None? <==> ms == [] || ms[0].itemtype != TopicItem
    ensures SectionRun(ms).1.topic.None? ==> SectionRun(ms).0 == [] && |SectionRun(ms).1.items| == |ms|
    ensures forall k | 0 <= k < |SectionRun(ms).0| :: Kept(SectionRun(ms).0[k])
    decreases |ms|
  {
    if ms != [] {
      var front := ms[..|ms| - 1];
      SectionRunPrologue(front);
      var (done, next) := SectionRun(front);
      var m := ms[|ms| - 1];
      if front != [] {
        assert front[0] == ms[0];
      }
      var old1 := done + [next];
      assert PrologueOnlyFirst(old1);
      if m.itemtype == TopicItem {
        var done1 := if Kept(next) then old1 else done;
        var new1 := done1 + [Section(Some(m), [])];
        assert SectionRun(ms).0 + [SectionRun(ms).1] == new1;
        assert PrologueOnlyFirst(new1) by {
          forall k | 0 < k < |new1| ensures new1[k].topic.Some? {
            if k < |done1| {
              assert new1[k] == old1[k];
            }
          }
        }
        if done1 == [] {
          assert front == [] || next.topic.Some?;
        } else {
          assert new1[0] == old1[0];
        }
      } else {
        var new1 := done + [next.(items := next.items + [m])];
        assert SectionRun(ms).0 + [SectionRun(ms).1] == new1;
        assert PrologueOnlyFirst(new1) by {
          forall k | 0 < k < |new1| ensures new1[k].topic.Some? {
            assert new1[k].topic == old1[k].topic;
          }
        }
        assert new1[0].topic == old1[0].topic;
      }
    }
  }

  /** The Prologue is there exactly when the minutes are empty or do not open with a topic, and only in first place. */
  lemma SectionsPrologue(ms: seq<Item>)
    ensures PrologueOnlyFirst(Sections(ms))
    ensures Sections(ms)[0].topic.None? <==> ms == [] || ms[0].itemtype != TopicItem
  {
    SectionRunPrologue(ms);
  }

  /** A Prologue without items is emitted only for empty minutes. */
  lemma SectionsPrologueItems(ms: seq<Item>)
    requires Sections(ms)[0].topic.None?
    ensures Sections(ms)[0].items == [] <==> ms == []
  {
    SectionRunPrologue(ms);
    var (done, next) := SectionRun(ms);
    if done != [] {
      assert Kept(done[0]);
      assert Sections(ms)[0] == done[0];
    }
  }

  /** The MeetingItems loop of get_template. */
  method MeetingSections(ms: seq<Item>) returns (sections: seq<Section>)
    ensures sections == Sections(ms)
  {
    var done: seq<Section> := [];
    var next := Section(None, []);
    var i := 0;
    while i < |ms|
      invariant 0 <= i <= |ms|
      invariant (done, next) == SectionRun(ms[..i])
    {
      assert ms[..i + 1][..i] == ms[..i];
      var m := ms[i];
      if m.itemtype == TopicItem {
        if (next.topic.Some? && next.topic.value.nick != "") || next.items != [] {
          done := done + [next];
        }
        next := Section(Some(m), []);
      } else {
        next := next.(items := next.items + [m]);
      }
      i := i + 1;
    }
    assert ms[..|ms|] == ms;
    sections := done + [next];
  }

  // ---- get_template: ActionItems, ActionItemsPerson, PeoplePresent ----

  /** The escaped lines of the ACTION items, in minutes order. */
  function ActionLines(ms: seq<Item>, escape: string -> string): seq<string>
    decreases |ms|
  {
    if ms == [] then []
    else
      var m := ms[|ms| - 1];
      ActionLines(ms[..|ms| - 1], escape) + (if m.itemtype == ActionItem then [escape(m.line)] else [])
  }

  /** The escaped lines of some items. */
  function EscapedLines(items: seq<Item>, escape: string -> string): (r: seq<string>)
    ensures |r| == |items|
    decreases |items|
  {
    if items == [] then [] else EscapedLines(items[..|items| - 1], escape) + [escape(items[|items| - 1].line)]
  }

  /** The step a loop over the minutes takes: the next item's line, when it is an ACTION item. */
  lemma ActionLinesStep(ms: seq<Item>, i: nat, escape: string -> string)
    requires i < |ms|
    ensures ActionLines(ms[..i + 1], escape)
      == ActionLines(ms[..i], escape) + (if ms[i].itemtype == ActionItem then [escape(ms[i].line)] else [])
  {
    assert ms[..i + 1][..i] == ms[..i];
  }

  lemma EscapedLinesStep(items: seq<Item>, i: nat, escape: string -> string)
    requires i < |items|
    ensures EscapedLines(items[..i + 1], escape) == EscapedLines(items[..i], escape) + [escape(items[i].line)]
  {
    assert items[..i + 1][..i] == items[..i];
  }

  /** `{'nick': ..., 'items': [...]}` of ActionItemsPerson. */
  datatype PersonActions = PersonActions(nick: string, items: seq<string>)

  /** The attendees' entries: those whose group is not empty. */
  function PersonGroups(groups: seq<(string, seq<Item>)>, escape: string -> string): seq<PersonActions>
    decreases |groups|
  {
    if groups == [] then []
    else
      var (nick, items) := groups[|groups| - 1];
      PersonGroups(groups[..|groups| - 1], escape)
      + (if items != [] then [PersonActions(escape(nick), EscapedLines(items, escape))] else [])
  }

  lemma PersonGroupsStep(groups: seq<(string, seq<Item>)>, i: nat, escape: string -> string)
    requires i < |groups|
    ensures PersonGroups(groups[..i + 1], escape) == PersonGroups(groups[..i], escape)
      + (if groups[i].1 != [] then [PersonActions(escape(groups[i].0), EscapedLines(groups[i].1, escape))] else [])
  {
    assert groups[..i + 1][..i] == groups[..i];
  }

  /** The UNASSIGNED entry, added only when it holds more than one item. */
  function UnassignedEntry(items: seq<Item>, escape: string -> string): seq<PersonActions> {
    if |items| > 1 then [PersonActions("UNASSIGNED", EscapedLines(items, escape))] else []
  }

  function People(counts: seq<(string, nat)>, escape: string -> string): (r: seq<(string, nat)>)
    ensures |r| == |counts|
    decreases |counts|
  {
    if counts == [] then []
    else
      var (nick, c) := counts[|counts| - 1];
      People(counts[..|counts| - 1], escape) + [(escape(nick), c)]
  }

  /** The four lists get_template adds to the replacements. */
  datatype TemplateData = TemplateData(meetingItems: seq<Section>, actionItems: seq<string>,
                                       actionItemsPerson: seq<PersonActions>, peoplePresent: seq<(string, nat)>)

  /** get_template's lists, from the minutes, the attendees and the items' marks before it runs. */
  function TemplateOf(ms: seq<Item>, attendees: seq<(string, nat)>, a: seq<bool>, escape: string -> string): TemplateData
    requires |a| == |ms|
  {
    var nicks := SortedNicks(attendees);
    TemplateData(Sections(ms), ActionLines(ms, escape),
                 PersonGroups(NickGroups(ms, nicks), escape) + UnassignedEntry(Unassigned(ms, MarkedBy(ms, a, nicks)), escape),
                 People(NickCounts(attendees), escape))
  }

  /**
   * On fresh items the UNASSIGNED entry lists the ACTION items that name
   * no attendee, and appears only when there are at least two of them.
   */
  lemma TemplateUnassigned(ms: seq<Item>, attendees: seq<(string, nat)>, escape: string -> string)
    ensures var nicks := SortedNicks(attendees);
      TemplateOf(ms, attendees, NoMarks(|ms|), escape).actionItemsPerson
      == PersonGroups(NickGroups(ms, nicks), escape)
         + (if |Unclaimed(ms, nicks)| > 1 then [PersonActions("UNASSIGNED", EscapedLines(Unclaimed(ms, nicks), escape))] else [])
  {
    UnassignedAfterGrouping(ms, SortedNicks(attendees));
  }

  /** Every attendee entry of ActionItemsPerson has at least one item. */
  lemma {:induction false} PersonGroupsNonEmpty(groups: seq<(string, seq<Item>)>, escape: string -> string)
    ensures forall k | 0 <= k < |PersonGroups(groups, escape)| :: PersonGroups(groups, escape)[k].items != []
    decreases |groups|
  {
    if groups != [] {
      PersonGroupsNonEmpty(groups[..|groups| - 1], escape);
    }
  }

  method ActionItemLines(ms: seq<Item>, escape: string -> string) returns (lines: seq<string>)
    ensures lines == ActionLines(ms, escape)
  {
    lines := [];
    var i := 0;
    while i < |ms|
      invariant 0 <= i <= |ms|
      invariant lines == ActionLines(ms[..i], escape)
    {
      assert ms[..i + 1][..i] == ms[..i];
      if ms[i].itemtype == ActionItem {
        lines := lines + [escape(ms[i].line)];
      }
      i := i + 1;
    }
    assert ms[..|ms|] == ms;
  }

  method LinesOf(items: seq<Item>, escape: string -> string) returns (lines: seq<string>)
    ensures lines == EscapedLines(items, escape)
  {
    lines := [];
    var i := 0;
    while i < |items|
      invariant 0 <= i <= |items|
      invariant lines == EscapedLines(items[..i], escape)
    {
      assert items[..i + 1][..i] == items[..i];
      lines := lines + [escape(items[i].line)];
      i := i + 1;
    }
    assert items[..|items|] == items;
  }

  method PersonEntries(groups: seq<(string, seq<Item>)>, escape: string -> string) returns (entries: seq<PersonActions>)
    ensures entries == PersonGroups(groups, escape)
  {
    entries := [];
    var i := 0;
    while i < |groups|
      invariant 0 <= i <= |groups|
      invariant entries == PersonGroups(groups[..i], escape)
    {
      assert groups[..i + 1][..i] == groups[..i];
      var (nick, items) := groups[i];
      var lines := LinesOf(items, escape);
      if |lines| > 0 {
        entries := entries + [PersonActions(escape(nick), lines)];
      }
      i := i + 1;
    }
    assert groups[..|groups|] == groups;
  }

  method PeopleEntries(counts: seq<(string, nat)>, escape: string -> string) returns (entries: seq<(string, nat)>)
    ensures entries == People(counts, escape)
  {
    entries := [];
    var i := 0;
    while i < |counts|
      invariant 0 <= i <= |counts|
      invariant entries == People(counts[..i], escape)
    {
      assert counts[..i + 1][..i] == counts[..i];
      entries := entries + [(escape(counts[i].0), counts[i].1)];
      i := i + 1;
    }
    assert counts[..|counts|] == counts;
  }

  /** get_template's lists; the marks of the ACTION items are set as a side effect. */
  method GetTemplate(ms: seq<Item>, attendees: seq<(string, nat)>, marks: ActionMarks, escape: string -> string)
    returns (t: TemplateData)
    requires |marks.marked| == |ms|
    modifies marks
    ensures t == TemplateOf(ms, attendees, old(marks.marked), escape)
    ensures marks.marked == MarkedBy(ms, old(marks.marked), SortedNicks(attendees))
  {
    var sections := MeetingSections(ms);
    var actions := ActionItemLines(ms, escape);
    var groups := ActionItemsNick(ms, attendees, marks);
    var persons := PersonEntries(groups, escape);
    var unassigned := ActionItemsUnassigned(ms, marks);
    var lines := LinesOf(unassigned, escape);
    if |lines| > 1 {
      persons := persons + [PersonActions("UNASSIGNED", lines)];
    }
    var people := PeopleEntries(NickCounts(attendees), escape);
    t := TemplateData(sections, actions, persons, people);
  }

  // ---- votes, as every writer reads them ----

  /** Every vote has an entry in publicVoters: `M.publicVoters[v]` does not raise. */
  predicate VotersKnown(votes: seq<(string, (string, nat))>, publicVoters: seq<(string, seq<string>)>) {
    forall k | 0 <= k < |votes| :: HasKey(publicVoters, votes[k].0)
  }

  /** A vote as the writer reads it: its topic, outcome, line number and public voters. */
  datatype VoteRow = VoteRow(topic: string, outcome: string, linenum: nat, voters: seq<string>)

  /** The votes in dict order, each with `M.publicVoters[v]` looked up. */
  function VoteRows(votes: seq<(string, (string, nat))>, publicVoters: seq<(string, seq<string>)>): (r: seq<VoteRow>)
    requires VotersKnown(votes, publicVoters)
    ensures |r| == |votes|
    decreases |votes|
  {
    if votes == [] then []
    else
      var vote := votes[|votes| - 1];
      var front := votes[..|votes| - 1];
      assert VotersKnown(front, publicVoters) by {
        forall k | 0 <= k < |front| ensures HasKey(publicVoters, front[k].0) {
          assert front[k] == votes[k];
        }
      }
      VoteRows(front, publicVoters) + [VoteRow(vote.0, vote.1.0, vote.1.1, Get(publicVoters, vote.0))]
  }

  lemma {:induction false} VoteRowsAt(votes: seq<(string, (string, nat))>, publicVoters: seq<(string, seq<string>)>, i: nat)
    requires VotersKnown(votes, publicVoters) && i < |votes|
    ensures VoteRows(votes, publicVoters)[i] == VoteRow(votes[i].0, votes[i].1.0, votes[i].1.1, Get(publicVoters, votes[i].0))
    decreases |votes|
  {
    var front := votes[..|votes| - 1];
    if i < |votes| - 1 {
      assert VotersKnown(front, publicVoters) by {
        forall k | 0 <= k < |front| ensures HasKey(publicVoters, front[k].0) { assert front[k] == votes[k]; }
      }
      VoteRowsAt(front, publicVoters, i);
    }
  }
}
