// The HTML2 writer's blocks: the nested minutes list, the vote results and
// the two action-item lists.  A line is kept as its indent and its tags and
// texts, so that the nesting of each tag can be counted; wrapList is taken
// to add the indent only.
module Html2 {
  import opened Wrappers
  import opened Strings
  import opened Dicts
  import opened Items
  import opened Escapes
  import opened ActionGroups
  import opened MinutesTemplate
  import opened Markup

  // ---- meetingItems ----

  /** The four flags of the loop. */
  datatype Nesting = Nesting(haveTopic: bool, haveSubtopic: bool, inSublist: bool, inSubsublist: bool)

  const Start := Nesting(false, false, false, false)
  const OlA := Open(Ol, " type=\"a\"")
  const OlI := Open(Ol, " type=\"i\"")


  /** What one minute item appends, and the flags after it; `render` is the item's own html2 rendering. */
  function ItemStep(f: Nesting, m: Item, render: Item -> string): (seq<HtmlLine>, Nesting) {
    var item := [Open(Li, ""), Text(render(m))];
    if m.itemtype == TopicItem then
      var c1 := if f.inSublist then [HtmlLine(4, [Close(Ol)])] else [];
      var c2 := if f.haveSubtopic then (if f.inSubsublist then [HtmlLine(8, [Close(Ol)])] else []) + [HtmlLine(6, [Close(Li)])] else [];
      var c3 := if f.haveTopic then [HtmlLine(2, [Close(Li), Text("<br>")])] else [];
      (c1 + c2 + c3 + [HtmlLine(2, item)], Nesting(true, false, false, if f.haveSubtopic then false else f.inSubsublist))
    else
      var o1 := if !f.inSublist then (if !f.haveTopic then [HtmlLine(2, [Open(Li, "")])] else []) + [HtmlLine(4, [OlA])] else [];
      var ht := f.haveTopic || !f.inSublist;
      if m.itemtype == SubtopicItem then (o1 + [HtmlLine(6, item)], Nesting(ht, true, true, f.inSubsublist))
      else if f.haveSubtopic then
        var o2 := if !f.inSubsublist then [HtmlLine(8, [OlI])] else [];
        (o1 + o2 + [HtmlLine(10, item + [Close(Li)])], Nesting(ht, true, true, true))
      else if ht then (o1 + [HtmlLine(6, item + [Close(Li)])], Nesting(ht, false, true, f.inSubsublist))
      else (o1 + [HtmlLine(2, item + [Close(Li)])], Nesting(ht, false, true, f.inSubsublist))
  }

  /** The closing lines after the loop. */
  function Finish(f: Nesting): seq<HtmlLine> {
    (if f.haveSubtopic then (if f.inSubsublist then [HtmlLine(8, [Close(Ol)])] else []) + [HtmlLine(6, [Close(Li)])] else [])
    + (if f.inSublist then [HtmlLine(4, [Close(Ol)])] else [])
    + (if f.haveTopic then [HtmlLine(2, [Close(Li)])] else [])
  }

  function ItemsRun(ms: seq<Item>, render: Item -> string): (seq<HtmlLine>, Nesting)
    decreases |ms|
  {
    if ms == [] then ([], Start)
    else
      var (lines, f) := ItemsRun(ms[..|ms| - 1], render);
      var (more, g) := ItemStep(f, ms[|ms| - 1], render);
      (lines + more, g)
  }

  function MeetingItemsLines(ms: seq<Item>, render: Item -> string): seq<HtmlLine> {
    var (lines, f) := ItemsRun(ms, render);
    [Heading("Meeting summary"), HtmlLine(0, [Open(Ol, "")])] + lines + Finish(f) + [HtmlLine(0, [Close(Ol)])]
  }

  /** How the flags can stand: a nested list only inside a topic, a sub-sub list only under a subtopic. */
  predicate NestingInv(f: Nesting) {
    (f.inSubsublist ==> f.haveSubtopic) && (f.haveSubtopic ==> f.inSublist) && (f.inSublist ==> f.haveTopic)
  }

  function Bit(b: bool): int { if b then 1 else 0 }

  /** The `<ol>` elements open while the loop runs: the outer one and one per nested list. */
  function OlDepth(f: Nesting): int { 1 + Bit(f.inSublist) + Bit(f.inSubsublist) }

  /** What a topic item appends closes the nested lists that are open. */
  lemma TopicStepOl(f: Nesting, m: Item, render: Item -> string)
    requires NestingInv(f) && m.itemtype == TopicItem
    ensures ScanLines(OlDepth(f), ItemStep(f, m, render).0, Ol) == Some(1)
  {
    var item := [Open(Li, ""), Text(render(m))];
    var d := OlDepth(f);
    var c1 := if f.inSublist then [HtmlLine(4, [Close(Ol)])] else [];
    var c2a := if f.inSubsublist then [HtmlLine(8, [Close(Ol)])] else [];
    var c2 := if f.haveSubtopic then c2a + [HtmlLine(6, [Close(Li)])] else [];
    var c3 := if f.haveTopic then [HtmlLine(2, [Close(Li), Text("<br>")])] else [];
    var d1 := d - Bit(f.inSublist);
    assert ScanLines(d, c1, Ol) == Some(d1) by {
      if f.inSublist { ScanOnePiece(d, 4, Close(Ol), Ol); }
    }
    assert ScanLines(d1, c2, Ol) == Some(1) by {
      if f.haveSubtopic {
        assert ScanLines(d1, c2a, Ol) == Some(1) by {
          if f.inSubsublist { ScanOnePiece(d1, 8, Close(Ol), Ol); }
        }
        ScanOneNeutral(1, HtmlLine(6, [Close(Li)]), Ol);
        ScanLinesAppend(d1, c2a, [HtmlLine(6, [Close(Li)])], Ol);
      }
    }
    assert ScanLines(1, c3, Ol) == Some(1) by {
      if f.haveTopic { ScanOneNeutral(1, HtmlLine(2, [Close(Li), Text("<br>")]), Ol); }
    }
    ScanOneNeutral(1, HtmlLine(2, item), Ol);
    ScanLinesAppend(d, c1, c2, Ol);
    ScanLinesAppend(d, c1 + c2, c3, Ol);
    ScanLinesAppend(d, c1 + c2 + c3, [HtmlLine(2, item)], Ol);
  }

  /** What a SUBTOPIC or plain item appends opens the nested lists it needs. */
  lemma InnerStepOl(f: Nesting, m: Item, render: Item -> string)
    requires NestingInv(f) && m.itemtype != TopicItem
    ensures ScanLines(OlDepth(f), ItemStep(f, m, render).0, Ol) == Some(OlDepth(ItemStep(f, m, render).1))
  {
    var item := [Open(Li, ""), Text(render(m))];
    var d := OlDepth(f);
    var o1a := if !f.haveTopic then [HtmlLine(2, [Open(Li, "")])] else [];
    var o1 := if !f.inSublist then o1a + [HtmlLine(4, [OlA])] else [];
    var d1 := d + Bit(!f.inSublist);
    assert ScanLines(d, o1, Ol) == Some(d1) by {
      if !f.inSublist {
        assert ScanLines(d, o1a, Ol) == Some(d) by {
          if !f.haveTopic { ScanOneNeutral(d, HtmlLine(2, [Open(Li, "")]), Ol); }
        }
        ScanOnePiece(d, 4, OlA, Ol);
        ScanLinesAppend(d, o1a, [HtmlLine(4, [OlA])], Ol);
      }
    }
    var more := ItemStep(f, m, render).0;
    if m.itemtype == SubtopicItem {
      ScanOneNeutral(d1, HtmlLine(6, item), Ol);
      ScanLinesAppend(d, o1, [HtmlLine(6, item)], Ol);
    } else if f.haveSubtopic {
      var o2 := if !f.inSubsublist then [HtmlLine(8, [OlI])] else [];
      var d2 := d1 + Bit(!f.inSubsublist);
      assert ScanLines(d1, o2, Ol) == Some(d2) by {
        if !f.inSubsublist { ScanOnePiece(d1, 8, OlI, Ol); }
      }
      var last := HtmlLine(10, item + [Close(Li)]);
      ScanOneNeutral(d2, last, Ol);
      ScanLinesAppend(d, o1, o2, Ol);
      ScanLinesAppend(d, o1 + o2, [last], Ol);
    } else {
      var last := more[|more| - 1];
      assert more == o1 + [last];
      ScanOneNeutral(d1, last, Ol);
      ScanLinesAppend(d, o1, [last], Ol);
    }
  }

  lemma ItemStepOl(f: Nesting, m: Item, render: Item -> string)
    requires NestingInv(f)
    ensures NestingInv(ItemStep(f, m, render).1)
    ensures ScanLines(OlDepth(f), ItemStep(f, m, render).0, Ol) == Some(OlDepth(ItemStep(f, m, render).1))
  {
    if m.itemtype == TopicItem {
      TopicStepOl(f, m, render);
    } else {
      InnerStepOl(f, m, render);
    }
  }

  lemma {:induction false} ItemsRunOl(ms: seq<Item>, render: Item -> string)
    ensures NestingInv(ItemsRun(ms, render).1)
    ensures ScanLines(1, ItemsRun(ms, render).0, Ol) == Some(OlDepth(ItemsRun(ms, render).1))
    decreases |ms|
  {
    if ms != [] {
      ItemsRunOl(ms[..|ms| - 1], render);
      var (lines, f) := ItemsRun(ms[..|ms| - 1], render);
      ItemStepOl(f, ms[|ms| - 1], render);
      ScanLinesAppend(1, lines, ItemStep(f, ms[|ms| - 1], render).0, Ol);
    }
  }

  lemma FinishOl(f: Nesting)
    requires NestingInv(f)
    ensures ScanLines(OlDepth(f), Finish(f), Ol) == Some(1)
  {
    var d := OlDepth(f);
    var aa := if f.inSubsublist then [HtmlLine(8, [Close(Ol)])] else [];
    var a := if f.haveSubtopic then aa + [HtmlLine(6, [Close(Li)])] else [];
    var b := if f.inSublist then [HtmlLine(4, [Close(Ol)])] else [];
    var c := if f.haveTopic then [HtmlLine(2, [Close(Li)])] else [];
    var d1 := 1 + Bit(f.inSublist);
    assert ScanLines(d, a, Ol) == Some(d1) by {
      if f.haveSubtopic {
        assert ScanLines(d, aa, Ol) == Some(d1) by {
          if f.inSubsublist { ScanOnePiece(d, 8, Close(Ol), Ol); }
        }
        ScanOneNeutral(d1, HtmlLine(6, [Close(Li)]), Ol);
        ScanLinesAppend(d, aa, [HtmlLine(6, [Close(Li)])], Ol);
      }
    }
    assert ScanLines(d1, b, Ol) == Some(1) by {
      if f.inSublist { ScanOnePiece(d1, 4, Close(Ol), Ol); }
    }
    assert ScanLines(1, c, Ol) == Some(1) by {
      if f.haveTopic { ScanOneNeutral(1, HtmlLine(2, [Close(Li)]), Ol); }
    }
    ScanLinesAppend(d, a, b, Ol);
    ScanLinesAppend(d, a + b, c, Ol);
  }

  /** Every `<ol …>` of the minutes block, nested or not, is closed by exactly one `</ol>`, for any items. */
  lemma MeetingItemsOlBalanced(ms: seq<Item>, render: Item -> string)
    ensures Balanced(MeetingItemsLines(ms, render), Ol)
  {
    var (lines, f) := ItemsRun(ms, render);
    var head := [Heading("Meeting summary"), HtmlLine(0, [Open(Ol, "")])];
    assert ScanLines(0, head, Ol) == Some(1) by {
      ScanOneNeutral(0, Heading("Meeting summary"), Ol);
      ScanOnePiece(0, 0, Open(Ol, ""), Ol);
      ScanLinesAppend(0, [Heading("Meeting summary")], [HtmlLine(0, [Open(Ol, "")])], Ol);
    }
    ScanOnePiece(1, 0, Close(Ol), Ol);
    ItemsRunOl(ms, render);
    FinishOl(f);
    ScanLinesAppend(0, head, lines, Ol);
    ScanLinesAppend(0, head + lines, Finish(f), Ol);
    ScanLinesAppend(0, head + lines + Finish(f), [HtmlLine(0, [Close(Ol)])], Ol);
  }

  /** The first SUBTOPIC or plain item after a topic opens the nested `<ol type="a">`; later ones do not. */
  lemma ItemStepOpensSublist(f: Nesting, m: Item, render: Item -> string)
    requires m.itemtype != TopicItem
    ensures ItemStep(f, m, render).1.inSublist
    ensures HtmlLine(4, [OlA]) in ItemStep(f, m, render).0 <==> !f.inSublist
  {
  }

  /** With the flags as the loop keeps them, a plain item is never written at the outer indent. */
  lemma PlainItemsNested(f: Nesting, m: Item, render: Item -> string)
    requires NestingInv(f) && m.itemtype != TopicItem && m.itemtype != SubtopicItem
    ensures var more := ItemStep(f, m, render).0; more[|more| - 1].indent in {6, 10}
  {
  }

  /** One pass of meetingItems' loop: the lines it appends for `m` and the flags after it. */
  method AppendItem(f: Nesting, m: Item, render: Item -> string) returns (more: seq<HtmlLine>, g: Nesting)
    ensures (more, g) == ItemStep(f, m, render)
  {
    var haveTopic, haveSubtopic, inSublist, inSubsublist := f.haveTopic, f.haveSubtopic, f.inSublist, f.inSubsublist;
    more := [];
    var item := [Open(Li, ""), Text(render(m))];
    if m.itemtype == TopicItem {
      if inSublist {
        more := more + [HtmlLine(4, [Close(Ol)])];
        inSublist := false;
      }
      if haveSubtopic {
        if inSubsublist {
          more := more + [HtmlLine(8, [Close(Ol)])];
          inSubsublist := false;
        }
        more := more + [HtmlLine(6, [Close(Li)])];
        haveSubtopic := false;
      }
      ghost var c2a := if f.inSubsublist then [HtmlLine(8, [Close(Ol)])] else [];
      ghost var c1 := if f.inSublist then [HtmlLine(4, [Close(Ol)])] else [];
      assert f.haveSubtopic ==> more == c1 + (c2a + [HtmlLine(6, [Close(Li)])]);
      if haveTopic {
        more := more + [HtmlLine(2, [Close(Li), Text("<br>")])];
      }
      more := more + [HtmlLine(2, item)];
      haveTopic := true;
    } else {
      if !inSublist {
        if !haveTopic {
          more := more + [HtmlLine(2, [Open(Li, "")])];
          haveTopic := true;
        }
        more := more + [HtmlLine(4, [OlA])];
        inSublist := true;
      }
      ghost var o1a := if !f.haveTopic then [HtmlLine(2, [Open(Li, "")])] else [];
      assert more == if !f.inSublist then o1a + [HtmlLine(4, [OlA])] else [];
      if m.itemtype == SubtopicItem {
        more := more + [HtmlLine(6, item)];
        haveSubtopic := true;
      } else if haveSubtopic {
        if !inSubsublist {
          more := more + [HtmlLine(8, [OlI])];
          inSubsublist := true;
        }
        more := more + [HtmlLine(10, item + [Close(Li)])];
      } else if haveTopic {
        more := more + [HtmlLine(6, item + [Close(Li)])];
      } else {
        more := more + [HtmlLine(2, item + [Close(Li)])];
      }
    }
    g := Nesting(haveTopic, haveSubtopic, inSublist, inSubsublist);
    assert g == ItemStep(f, m, render).1;
    assert more == ItemStep(f, m, render).0;
  }

  /** HTML2.meetingItems. */
  method MeetingItems(ms: seq<Item>, render: Item -> string) returns (block: string)
    ensures block == Render(MeetingItemsLines(ms, render))
  {
    var lines: seq<HtmlLine> := [];
    var f := Start;
    var i := 0;
    while i < |ms|
      invariant 0 <= i <= |ms|
      invariant (lines, f) == ItemsRun(ms[..i], render)
    {
      assert ms[..i + 1][..i] == ms[..i];
      var more;
      more, f := AppendItem(f, ms[i], render);
      lines := lines + more;
      i := i + 1;
    }
    assert ms[..|ms|] == ms;
    block := Render([Heading("Meeting summary"), HtmlLine(0, [Open(Ol, "")])] + lines + Finish(f) + [HtmlLine(0, [Close(Ol)])]);
  }

  // ---- votes ----

  /** The lines one vote begins with: the link to its line in the log, its outcome, its public voters if any. */
  function VoteHead(row: VoteRow, fullLogs: string): seq<HtmlLine> {
    [HtmlLine(2, [Open(Li, ""), Open(A, " href='" + fullLogs + "#" + NatToString(row.linenum) + "'"), Text(Html(row.topic)), Close(A)]),
     HtmlLine(4, [Open(Ul, ""), Open(Li, ""), Text(Html(row.outcome))])]
    + (if row.voters != [] then [HtmlLine(6, [Open(Ul, ""), Open(Li, ""), Text("Voters: " + Html(Join(", ", row.voters))), Close(Li), Close(Ul)])] else [])
  }

  /** `</li></ul>` and `</li>`, closing a vote's entry. */
  const VoteEnd := [HtmlLine(4, [Close(Li), Close(Ul)]), HtmlLine(2, [Close(Li)])]

  /** The loop of HTML2.votes as written: each vote's lines, with nothing closed. */
  function VoteHeads(rows: seq<VoteRow>, fullLogs: string): seq<HtmlLine>
    decreases |rows|
  {
    if rows == [] then [] else VoteHeads(rows[..|rows| - 1], fullLogs) + VoteHead(rows[|rows| - 1], fullLogs)
  }

  /** HTML2.votes as written: one `</li></ul>` and one `</li>` after the loop, whatever the number of votes. */
  function VotesAsWritten(votes: seq<(string, (string, nat))>, publicVoters: seq<(string, seq<string>)>, fullLogs: string): Option<seq<HtmlLine>>
    requires VotersKnown(votes, publicVoters)
  {
    if votes == [] then None
    else Some([Heading("Vote results"), HtmlLine(0, [Open(Ol, "")])] + VoteHeads(VoteRows(votes, publicVoters), fullLogs) + VoteEnd + [HtmlLine(0, [Close(Ol)])])
  }

  /** A vote's first lines open one `<ul>` and two `<li>` that they leave open. */
  lemma VoteHeadScan(d: int, row: VoteRow, fullLogs: string, tag: Tag)
    requires d >= 0
    ensures ScanLines(d, VoteHead(row, fullLogs), tag) == Some(d + 2 * D(Li, tag) + D(Ul, tag))
  {
    var href := " href='" + fullLogs + "#" + NatToString(row.linenum) + "'";
    var l1 := HtmlLine(2, [Open(Li, ""), Open(A, href), Text(Html(row.topic)), Close(A)]);
    var l2 := HtmlLine(4, [Open(Ul, ""), Open(Li, ""), Text(Html(row.outcome))]);
    var l3 := if row.voters != [] then [HtmlLine(6, [Open(Ul, ""), Open(Li, ""), Text("Voters: " + Html(Join(", ", row.voters))), Close(Li), Close(Ul)])] else [];
    var d1 := d + D(Li, tag);
    var d2 := d1 + D(Ul, tag) + D(Li, tag);
    ScanLine(d, l1, tag);
    ScanOpenWrapped(d, Li, A, href, Html(row.topic), tag);
    ScanLine(d1, l2, tag);
    ScanOpenOpenText(d1, Ul, Li, Html(row.outcome), tag);
    ScanLinesAppend(d, [l1], [l2], tag);
    assert ScanLines(d2, l3, tag) == Some(d2) by {
      if row.voters != [] {
        ScanLine(d2, l3[0], tag);
        ScanNested(d2, Ul, Li, "Voters: " + Html(Join(", ", row.voters)), tag);
      }
    }
    ScanLinesAppend(d, [l1] + [l2], l3, tag);
    assert [l1, l2] == [l1] + [l2];
  }

  lemma {:induction false} VoteHeadsUl(rows: seq<VoteRow>, fullLogs: string)
    ensures ScanLines(0, VoteHeads(rows, fullLogs), Ul) == Some(|rows|)
    decreases |rows|
  {
    if rows != [] {
      var front := rows[..|rows| - 1];
      VoteHeadsUl(front, fullLogs);
      VoteHeadScan(|front|, rows[|rows| - 1], fullLogs, Ul);
      ScanLinesAppend(0, VoteHeads(front, fullLogs), VoteHead(rows[|rows| - 1], fullLogs), Ul);
    }
  }

  lemma VoteEndScan(d: int, tag: Tag)
    requires d >= 2 * D(Li, tag) + D(Ul, tag)
    ensures ScanLines(d, VoteEnd, tag) == Some(d - 2 * D(Li, tag) - D(Ul, tag))
  {
    var l1 := HtmlLine(4, [Close(Li), Close(Ul)]);
    ScanLine(d, l1, tag);
    ScanCloseClose(d, Li, Ul, tag);
    ScanOnePiece(d - D(Li, tag) - D(Ul, tag), 2, Close(Li), tag);
    ScanLinesAppend(d, [l1], [HtmlLine(2, [Close(Li)])], tag);
    assert VoteEnd == [l1] + [HtmlLine(2, [Close(Li)])];
  }

  /** As written, n votes leave n - 1 `<ul>` lists unclosed. */
  lemma VotesAsWrittenUl(votes: seq<(string, (string, nat))>, publicVoters: seq<(string, seq<string>)>, fullLogs: string)
    requires VotersKnown(votes, publicVoters) && votes != []
    ensures ScanLines(0, VotesAsWritten(votes, publicVoters, fullLogs).value, Ul) == Some(|votes| - 1)
  {
    var tag := Ul;
    var head := [Heading("Vote results"), HtmlLine(0, [Open(Ol, "")])];
    var body := VoteHeads(VoteRows(votes, publicVoters), fullLogs);
    HeadingScan(0, "Vote results", tag);
    ScanOnePiece(0, 0, Open(Ol, ""), tag);
    ScanLinesAppend(0, [Heading("Vote results")], [HtmlLine(0, [Open(Ol, "")])], tag);
    assert [Heading("Vote results")] + [HtmlLine(0, [Open(Ol, "")])] == head;
    VoteHeadsUl(VoteRows(votes, publicVoters), fullLogs);
    VoteEndScan(|votes|, tag);
    ScanOnePiece(|votes| - 1, 0, Close(Ol), tag);
    ScanLinesAppend(0, head, body, tag);
    ScanLinesAppend(0, head + body, VoteEnd, tag);
    ScanLinesAppend(0, head + body + VoteEnd, [HtmlLine(0, [Close(Ol)])], tag);
  }

  /** So with two or more votes the block as written is not well nested. */
  lemma VotesAsWrittenUnbalanced(votes: seq<(string, (string, nat))>, publicVoters: seq<(string, seq<string>)>, fullLogs: string)
    requires VotersKnown(votes, publicVoters) && |votes| >= 2
    ensures !Balanced(VotesAsWritten(votes, publicVoters, fullLogs).value, Ul)
  {
    VotesAsWrittenUl(votes, publicVoters, fullLogs);
  }

  /** The corrected loop: each vote's entry is closed before the next one opens. */
  function VoteEntries(rows: seq<VoteRow>, fullLogs: string): seq<HtmlLine>
    decreases |rows|
  {
    if rows == [] then [] else VoteEntries(rows[..|rows| - 1], fullLogs) + VoteHead(rows[|rows| - 1], fullLogs) + VoteEnd
  }

  lemma VoteEntriesStep(rows: seq<VoteRow>, i: nat, fullLogs: string)
    requires i < |rows|
    ensures VoteEntries(rows[..i + 1], fullLogs) == VoteEntries(rows[..i], fullLogs) + VoteHead(rows[i], fullLogs) + VoteEnd
  {
    assert rows[..i + 1][..i] == rows[..i];
  }

  /** HTML2.votes with every vote's `</li></ul>` and `</li>` written after its own lines. */
  function VotesBlock(votes: seq<(string, (string, nat))>, publicVoters: seq<(string, seq<string>)>, fullLogs: string): Option<seq<HtmlLine>>
    requires VotersKnown(votes, publicVoters)
  {
    if votes == [] then None
    else Some(Framed("Vote results", VoteEntries(VoteRows(votes, publicVoters), fullLogs)))
  }

  lemma {:induction false} VoteEntriesScan(d: int, rows: seq<VoteRow>, fullLogs: string, tag: Tag)
    requires d >= 0
    ensures ScanLines(d, VoteEntries(rows, fullLogs), tag) == Some(d)
    decreases |rows|
  {
    if rows != [] {
      var front := rows[..|rows| - 1];
      var head := VoteHead(rows[|rows| - 1], fullLogs);
      var before := VoteEntries(front, fullLogs);
      var k := 2 * D(Li, tag) + D(Ul, tag);
      assert ScanLines(d, before + head, tag) == Some(d + k) by {
        VoteEntriesScan(d, front, fullLogs, tag);
        VoteHeadScan(d, rows[|rows| - 1], fullLogs, tag);
        ScanThen(d, before, head, tag, d);
      }
      assert ScanLines(d, before + head + VoteEnd, tag) == Some(d) by {
        VoteEndScan(d + k, tag);
        ScanThen(d, before + head, VoteEnd, tag, d + k);
      }
    }
  }

  /** The corrected vote results are well nested in every tag. */
  lemma VotesBalanced(votes: seq<(string, (string, nat))>, publicVoters: seq<(string, seq<string>)>, fullLogs: string, tag: Tag)
    requires VotersKnown(votes, publicVoters) && votes != []
    ensures Balanced(VotesBlock(votes, publicVoters, fullLogs).value, tag)
  {
    VoteEntriesScan(D(Ol, tag), VoteRows(votes, publicVoters), fullLogs, tag);
    FramedBalanced("Vote results", VoteEntries(VoteRows(votes, publicVoters), fullLogs), tag);
  }

  /** HTML2.votes (corrected): None without votes. */
  method Votes(votes: seq<(string, (string, nat))>, publicVoters: seq<(string, seq<string>)>, fullLogs: string)
    returns (block: Option<string>)
    requires VotersKnown(votes, publicVoters)
    ensures block == RenderBlock(VotesBlock(votes, publicVoters, fullLogs))
  {
    ghost var rows := VoteRows(votes, publicVoters);
    var lines: seq<HtmlLine> := [];
    var i := 0;
    while i < |votes|
      invariant 0 <= i <= |votes|
      invariant lines == VoteEntries(rows[..i], fullLogs)
    {
      VoteEntriesStep(rows, i, fullLogs);
      var (v, (vsum, vline)) := votes[i];
      var voters := Get(publicVoters, v);
      assert rows[i] == VoteRow(v, vsum, vline, voters) by { VoteRowsAt(votes, publicVoters, i); }
      lines := lines + VoteHead(VoteRow(v, vsum, vline, voters), fullLogs) + VoteEnd;
      i := i + 1;
    }
    assert rows[..|votes|] == rows;
    if lines == [] {
      block := None;
    } else {
      block := Some(Render(Framed("Vote results", lines)));
    }
  }


  // ---- actionItems ----

  function ActionItemsBlock(ms: seq<Item>): Option<seq<HtmlLine>> {
    var texts := ActionLines(ms, Html);
    if texts == [] then None
    else Some(Framed("Action items", EntryLines(texts, 2)))
  }

  lemma {:induction false} ActionLinesEmpty(ms: seq<Item>, escape: string -> string)
    ensures ActionLines(ms, escape) == [] <==> forall k | 0 <= k < |ms| :: ms[k].itemtype != ActionItem
    decreases |ms|
  {
    if ms != [] {
      var front := ms[..|ms| - 1];
      ActionLinesEmpty(front, escape);
      assert forall k | 0 <= k < |front| :: front[k] == ms[k];
    }
  }

  /** The action-items block is missing exactly when no item is an ACTION, and is well nested otherwise. */
  lemma ActionItemsSpec(ms: seq<Item>, tag: Tag)
    ensures ActionItemsBlock(ms).None? <==> forall k | 0 <= k < |ms| :: ms[k].itemtype != ActionItem
    ensures ActionItemsBlock(ms).Some? ==> Balanced(ActionItemsBlock(ms).value, tag)
  {
    ActionLinesEmpty(ms, Html);
    var texts := ActionLines(ms, Html);
    if texts != [] {
      EntryLinesScan(D(Ol, tag), texts, 2, tag);
      FramedBalanced("Action items", EntryLines(texts, 2), tag);
    }
  }

  /** HTML2.actionItems. */
  method ActionItems(ms: seq<Item>) returns (block: Option<string>)
    ensures block == RenderBlock(ActionItemsBlock(ms))
  {
    var lines: seq<HtmlLine> := [];
    var i := 0;
    while i < |ms|
      invariant 0 <= i <= |ms|
      invariant lines == EntryLines(ActionLines(ms[..i], Html), 2)
    {
      ActionLinesStep(ms, i, Html);
      if ms[i].itemtype == ActionItem {
        assert ActionLines(ms[..i + 1], Html) == ActionLines(ms[..i], Html) + [Html(ms[i].line)];
        EntryLinesStep(ActionLines(ms[..i], Html), Html(ms[i].line), 2);
        lines := lines + [HtmlLine(2, [Open(Li, ""), Text(Html(ms[i].line)), Close(Li)])];
        assert lines == EntryLines(ActionLines(ms[..i + 1], Html), 2);
      } else {
        assert ActionLines(ms[..i + 1], Html) == ActionLines(ms[..i], Html);
      }
      i := i + 1;
    }
    assert ms[..|ms|] == ms;
    if lines == [] {
      block := None;
    } else {
      block := Some(Render(Framed("Action items", lines)));
    }
  }

  // ---- actionItemsPerson ----

  /** One attendee's entry: the nick opening a lettered list of their items. */
  function PersonBlock(e: PersonActions): seq<HtmlLine> {
    [HtmlLine(2, [Open(Li, ""), Text(e.nick), OlA])] + EntryLines(e.items, 4) + [HtmlLine(2, [Close(Ol), Close(Li)])]
  }

  function PersonLines(entries: seq<PersonActions>): seq<HtmlLine>
    decreases |entries|
  {
    if entries == [] then [] else PersonLines(entries[..|entries| - 1]) + PersonBlock(entries[|entries| - 1])
  }

  /** The UNASSIGNED entry, written when there is at least one such item. */
  function UnassignedBlock(texts: seq<string>): seq<HtmlLine> {
    if texts == [] then []
    else [HtmlLine(2, [Open(Li, ""), Open(B, ""), Text("UNASSIGNED"), Close(B), Open(Ol, "")])]
         + EntryLines(texts, 4) + [HtmlLine(2, [Close(Ol), Close(Li)])]
  }

  /** The section from the attendees' entries and the unassigned items' texts: none without an entry. */
  function PersonSection(persons: seq<PersonActions>, unassigned: seq<string>): Option<seq<HtmlLine>> {
    if persons == [] then None
    else Some(Framed("Action items, by person", PersonLines(persons) + UnassignedBlock(unassigned)))
  }

  /** HTML2.actionItemsPerson, from the minutes, the attendees and the items' marks before it runs. */
  function ActionItemsPersonBlock(ms: seq<Item>, attendees: seq<(string, nat)>, a: seq<bool>): Option<seq<HtmlLine>>
    requires |a| == |ms|
  {
    var nicks := SortedNicks(attendees);
    PersonSection(PersonGroups(NickGroups(ms, nicks), Html), EscapedLines(Unassigned(ms, MarkedBy(ms, a, nicks)), Html))
  }

  /** No group holds an item. */
  predicate AllEmpty(groups: seq<(string, seq<Item>)>) {
    forall k | 0 <= k < |groups| :: groups[k].1 == []
  }

  lemma PersonLinesStep(entries: seq<PersonActions>, add: bool, e: PersonActions)
    ensures PersonLines(entries + (if add then [e] else [])) == PersonLines(entries) + (if add then PersonBlock(e) else [])
  {
    if add {
      assert (entries + [e])[..|entries|] == entries;
    } else {
      assert entries + [] == entries;
    }
  }

  lemma {:induction false} PersonGroupsEmpty(groups: seq<(string, seq<Item>)>, escape: string -> string)
    ensures PersonGroups(groups, escape) == [] <==> AllEmpty(groups)
    decreases |groups|
  {
    if groups != [] {
      var front := groups[..|groups| - 1];
      PersonGroupsEmpty(front, escape);
      assert forall k | 0 <= k < |front| :: front[k] == groups[k];
    }
  }

  /** An open-close frame around entry lines, as a person's entry and the UNASSIGNED entry are. */
  lemma FrameScan(d: int, first: HtmlLine, texts: seq<string>, tag: Tag)
    requires d >= 0
    requires ScanParts(d, first.parts, tag) == Some(d + D(Li, tag) + D(Ol, tag))
    ensures ScanLines(d, [first] + EntryLines(texts, 4) + [HtmlLine(2, [Close(Ol), Close(Li)])], tag) == Some(d)
  {
    var e := d + D(Li, tag) + D(Ol, tag);
    ScanLine(d, first, tag);
    EntryLinesScan(e, texts, 4, tag);
    ScanLine(e, HtmlLine(2, [Close(Ol), Close(Li)]), tag);
    ScanCloseClose(e, Ol, Li, tag);
    ScanLinesAppend(d, [first], EntryLines(texts, 4), tag);
    ScanLinesAppend(d, [first] + EntryLines(texts, 4), [HtmlLine(2, [Close(Ol), Close(Li)])], tag);
  }

  lemma {:induction false} PersonLinesScan(d: int, entries: seq<PersonActions>, tag: Tag)
    requires d >= 0
    ensures ScanLines(d, PersonLines(entries), tag) == Some(d)
    decreases |entries|
  {
    if entries != [] {
      var e := entries[|entries| - 1];
      PersonLinesScan(d, entries[..|entries| - 1], tag);
      ScanOpenTextOpen(d, Open(Li, ""), e.nick, OlA, tag);
      FrameScan(d, HtmlLine(2, [Open(Li, ""), Text(e.nick), OlA]), e.items, tag);
      ScanLinesAppend(d, PersonLines(entries[..|entries| - 1]), PersonBlock(e), tag);
    }
  }

  lemma UnassignedBlockScan(d: int, texts: seq<string>, tag: Tag)
    requires d >= 0
    ensures ScanLines(d, UnassignedBlock(texts), tag) == Some(d)
  {
    if texts != [] {
      var first := HtmlLine(2, [Open(Li, ""), Open(B, ""), Text("UNASSIGNED"), Close(B), Open(Ol, "")]);
      ScanUnassignedHead(d, tag);
      FrameScan(d, first, texts, tag);
    }
  }

  /**
   * The block is missing exactly when no attendee is named by an ACTION
   * item, even if unassigned ones exist, and is well nested otherwise.
   */
  lemma ActionItemsPersonSpec(ms: seq<Item>, attendees: seq<(string, nat)>, a: seq<bool>, tag: Tag)
    requires |a| == |ms|
    ensures ActionItemsPersonBlock(ms, attendees, a).None? <==> AllEmpty(NickGroups(ms, SortedNicks(attendees)))
    ensures ActionItemsPersonBlock(ms, attendees, a).Some? ==> Balanced(ActionItemsPersonBlock(ms, attendees, a).value, tag)
  {
    var nicks := SortedNicks(attendees);
    var groups := NickGroups(ms, nicks);
    var persons := PersonGroups(groups, Html);
    var un := EscapedLines(Unassigned(ms, MarkedBy(ms, a, nicks)), Html);
    assert ActionItemsPersonBlock(ms, attendees, a) == PersonSection(persons, un);
    PersonGroupsEmpty(groups, Html);
    assert PersonSection(persons, un).None? <==> persons == [];
    PersonSectionBalanced(persons, un, tag);
  }

  lemma PersonSectionBalanced(persons: seq<PersonActions>, unassigned: seq<string>, tag: Tag)
    ensures PersonSection(persons, unassigned).Some? ==> Balanced(PersonSection(persons, unassigned).value, tag)
  {
    if persons != [] {
      PersonLinesScan(D(Ol, tag), persons, tag);
      UnassignedBlockScan(D(Ol, tag), unassigned, tag);
      ScanLinesAppend(D(Ol, tag), PersonLines(persons), UnassignedBlock(unassigned), tag);
      FramedBalanced("Action items, by person", PersonLines(persons) + UnassignedBlock(unassigned), tag);
    }
  }

  /** The `<li>` lines of some items, in order. */
  method ItemEntryLines(items: seq<Item>, indent: nat) returns (entries: seq<HtmlLine>)
    ensures entries == EntryLines(EscapedLines(items, Html), indent)
  {
    entries := [];
    var j := 0;
    while j < |items|
      invariant 0 <= j <= |items|
      invariant entries == EntryLines(EscapedLines(items[..j], Html), indent)
    {
      EscapedLinesStep(items, j, Html);
      EntryLinesStep(EscapedLines(items[..j], Html), Html(items[j].line), indent);
      entries := entries + [HtmlLine(indent, [Open(Li, ""), Text(Html(items[j].line)), Close(Li)])];
      j := j + 1;
    }
    assert items[..|items|] == items;
  }

  /**
   * The lines of one attendee's group: the header goes out before the
   * first item, so the entry is written exactly when the group has one.
   */
  method PersonGroupLines(nick: string, items: seq<Item>) returns (lines: seq<HtmlLine>)
    ensures lines == if items == [] then [] else PersonBlock(PersonActions(Html(nick), EscapedLines(items, Html)))
  {
    var entries := ItemEntryLines(items, 4);
    if items == [] {
      lines := [];
    } else {
      lines := [HtmlLine(2, [Open(Li, ""), Text(Html(nick)), OlA])] + entries + [HtmlLine(2, [Close(Ol), Close(Li)])];
    }
  }

  /** The attendees' entries, one group after another. */
  method PersonEntryLines(groups: seq<(string, seq<Item>)>) returns (lines: seq<HtmlLine>)
    ensures lines == PersonLines(PersonGroups(groups, Html))
  {
    lines := [];
    var i := 0;
    while i < |groups|
      invariant 0 <= i <= |groups|
      invariant lines == PersonLines(PersonGroups(groups[..i], Html))
    {
      PersonGroupsStep(groups, i, Html);
      var (nick, items) := groups[i];
      var more := PersonGroupLines(nick, items);
      PersonLinesStep(PersonGroups(groups[..i], Html), groups[i].1 != [], PersonActions(Html(nick), EscapedLines(items, Html)));
      lines := lines + more;
      i := i + 1;
    }
    assert groups[..|groups|] == groups;
  }

  /** The UNASSIGNED entry's lines, none when no item is left. */
  method UnassignedLines(items: seq<Item>) returns (lines: seq<HtmlLine>)
    ensures lines == UnassignedBlock(EscapedLines(items, Html))
  {
    var entries := ItemEntryLines(items, 4);
    if entries == [] {
      lines := [];
    } else {
      lines := [HtmlLine(2, [Open(Li, ""), Open(B, ""), Text("UNASSIGNED"), Close(B), Open(Ol, "")])]
               + entries + [HtmlLine(2, [Close(Ol), Close(Li)])];
    }
  }

  /** HTML2.actionItemsPerson; the marks of the ACTION items are set as a side effect. */
  method ActionItemsPerson(ms: seq<Item>, attendees: seq<(string, nat)>, marks: ActionMarks) returns (block: Option<string>)
    requires |marks.marked| == |ms|
    modifies marks
    ensures block == RenderBlock(ActionItemsPersonBlock(ms, attendees, old(marks.marked)))
    ensures marks.marked == MarkedBy(ms, old(marks.marked), SortedNicks(attendees))
  {
    ghost var a := marks.marked;
    var groups := ActionItemsNick(ms, attendees, marks);
    ghost var persons := PersonGroups(groups, Html);
    var lines := PersonEntryLines(groups);
    if lines == [] {
      PersonLinesNonEmpty(persons);
      block := None;
    } else {
      var unassigned := ActionItemsUnassigned(ms, marks);
      var entries := UnassignedLines(unassigned);
      block := Some(Render(Framed("Action items, by person", lines + entries)));
      assert PersonSection(persons, EscapedLines(unassigned, Html)).value == Framed("Action items, by person", lines + entries);
    }
  }

  lemma {:induction false} PersonLinesNonEmpty(entries: seq<PersonActions>)
    ensures PersonLines(entries) == [] ==> entries == []
    decreases |entries|
  {
  }
}
