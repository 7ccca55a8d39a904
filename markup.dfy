// The markup the HTML writer emits, kept as tags and texts so that the
// nesting of each tag can be counted: a line is its indent and its pieces,
// a block the lines joined by newlines.
module Markup {
  import opened Wrappers
  import opened Strings

  /** The elements the writer opens and closes. */
  datatype Tag = Ol | Ul | Li | A | B | H3

  function TagName(t: Tag): string {
    match t
    case Ol => "ol"
    case Ul => "ul"
    case Li => "li"
    case A => "a"
    case B => "b"
    case H3 => "h3"
  }

  datatype Piece = Open(tag: Tag, attrs: string) | Close(tag: Tag) | Text(s: string)

  /** One element of the list the block is joined from: its indent and what follows it. */
  datatype HtmlLine = HtmlLine(indent: nat, parts: seq<Piece>)

  function PieceText(p: Piece): string {
    match p
    case Open(tag, attrs) => "<" + TagName(tag) + attrs + ">"
    case Close(tag) => "</" + TagName(tag) + ">"
    case Text(s) => s
  }

  function PartsText(ps: seq<Piece>): string
    decreases |ps|
  {
    if ps == [] then "" else PieceText(ps[0]) + PartsText(ps[1..])
  }

  /** indentItem / wrapList: the indent, then the line. */
  function LineText(l: HtmlLine): string {
    Repeat(' ', l.indent) + PartsText(l.parts)
  }

  /** "\n".join(lines). */
  function Render(lines: seq<HtmlLine>): string {
    Join("\n", seq(|lines|, i requires 0 <= i < |lines| => LineText(lines[i])))
  }

  function RenderBlock(block: Option<seq<HtmlLine>>): Option<string> {
    match block
    case None => None
    case Some(lines) => Some(Render(lines))
  }

  // ---- Nesting of a tag ----

  function Delta(p: Piece, tag: Tag): int {
    if p.Open? && p.tag == tag then 1 else if p.Close? && p.tag == tag then -1 else 0
  }

  /** The open `tag` elements after the pieces, from `d` open before; None once more are closed than opened. */
  function ScanParts(d: int, ps: seq<Piece>, tag: Tag): Option<int> {
    ScanFrom(d, ps, 0, tag)
  }

  /** The same walk from piece i on. */
  function ScanFrom(d: int, ps: seq<Piece>, i: nat, tag: Tag): Option<int>
    decreases |ps| - i
  {
    if i >= |ps| then Some(d)
    else if d + Delta(ps[i], tag) < 0 then None
    else ScanFrom(d + Delta(ps[i], tag), ps, i + 1, tag)
  }

  function ScanLines(d: int, lines: seq<HtmlLine>, tag: Tag): Option<int>
    decreases |lines|
  {
    if lines == [] then Some(d)
    else
      match ScanParts(d, lines[0].parts, tag)
      case None => None
      case Some(e) => ScanLines(e, lines[1..], tag)
  }

  /** Every `</tag>` closes an open `<tag>`, and none is left open. */
  predicate Balanced(lines: seq<HtmlLine>, tag: Tag) {
    ScanLines(0, lines, tag) == Some(0)
  }

  lemma {:induction false} ScanLinesAppend(d: int, a: seq<HtmlLine>, b: seq<HtmlLine>, tag: Tag)
    ensures ScanLines(d, a, tag).None? ==> ScanLines(d, a + b, tag).None?
    ensures ScanLines(d, a, tag).Some? ==> ScanLines(d, a + b, tag) == ScanLines(ScanLines(d, a, tag).value, b, tag)
    decreases |a|
  {
    if a == [] {
      assert a + b == b;
    } else {
      assert (a + b)[0] == a[0];
      assert (a + b)[1..] == a[1..] + b;
      var first := ScanParts(d, a[0].parts, tag);
      if first.Some? {
        ScanLinesAppend(first.value, a[1..], b, tag);
      }
    }
  }

  lemma ScanThen(d: int, a: seq<HtmlLine>, b: seq<HtmlLine>, tag: Tag, e: int)
    requires ScanLines(d, a, tag) == Some(e)
    ensures ScanLines(d, a + b, tag) == ScanLines(e, b, tag)
  {
    ScanLinesAppend(d, a, b, tag);
  }

  /** A piece sequence with no `tag` in it leaves the count alone. */
  predicate Neutral(ps: seq<Piece>, tag: Tag) {
    forall k | 0 <= k < |ps| :: Delta(ps[k], tag) == 0
  }

  lemma {:induction false} ScanFromNeutral(d: int, ps: seq<Piece>, i: nat, tag: Tag)
    requires d >= 0 && Neutral(ps, tag)
    ensures ScanFrom(d, ps, i, tag) == Some(d)
    decreases |ps| - i
  {
    if i < |ps| {
      assert Delta(ps[i], tag) == 0;
      ScanFromNeutral(d, ps, i + 1, tag);
    }
  }

  lemma ScanPartsNeutral(d: int, ps: seq<Piece>, tag: Tag)
    requires d >= 0 && Neutral(ps, tag)
    ensures ScanParts(d, ps, tag) == Some(d)
  {
    ScanFromNeutral(d, ps, 0, tag);
  }

  lemma ScanOneNeutral(d: int, l: HtmlLine, tag: Tag)
    requires d >= 0 && Neutral(l.parts, tag)
    ensures ScanLines(d, [l], tag) == Some(d)
  {
    assert [l][1..] == [];
    ScanPartsNeutral(d, l.parts, tag);
  }

  /** A line holding one piece moves the count by that piece. */
  lemma ScanOnePiece(d: int, n: nat, p: Piece, tag: Tag)
    ensures ScanLines(d, [HtmlLine(n, [p])], tag) == (if d + Delta(p, tag) < 0 then None else Some(d + Delta(p, tag)))
  {
    var e := d + Delta(p, tag);
    assert [HtmlLine(n, [p])][1..] == [];
    assert ScanFrom(d, [p], 0, tag) == (if e < 0 then None else ScanFrom(e, [p], 1, tag));
  }

  /** HTML2.heading: `<h3>name</h3>`. */
  function Heading(name: string): HtmlLine {
    HtmlLine(0, [Open(H3, ""), Text(name), Close(H3)])
  }

  // ---- Lines of a few fixed shapes ----

  /** Whether `name` is the tag being counted. */
  function D(t: Tag, tag: Tag): int { if t == tag then 1 else 0 }

  /** `<t>x</t>`, as in a list entry or a heading. */
  lemma ScanWrapped(d: int, t: Tag, a: string, x: string, tag: Tag)
    requires d >= 0
    ensures ScanParts(d, [Open(t, a), Text(x), Close(t)], tag) == Some(d)
  {
    var ps := [Open(t, a), Text(x), Close(t)];
    var d1 := d + D(t, tag);
    assert ScanFrom(d, ps, 0, tag) == ScanFrom(d1, ps, 1, tag);
    assert ScanFrom(d1, ps, 1, tag) == ScanFrom(d1, ps, 2, tag);
    assert ScanFrom(d1, ps, 2, tag) == ScanFrom(d, ps, 3, tag);
  }

  /** `<t1><t2>x</t2></t1>`, the voters line. */
  lemma ScanNested(d: int, t1: Tag, t2: Tag, x: string, tag: Tag)
    requires d >= 0
    ensures ScanParts(d, [Open(t1, ""), Open(t2, ""), Text(x), Close(t2), Close(t1)], tag) == Some(d)
  {
    var ps := [Open(t1, ""), Open(t2, ""), Text(x), Close(t2), Close(t1)];
    var d1 := d + D(t1, tag);
    var d2 := d1 + D(t2, tag);
    assert ScanFrom(d, ps, 0, tag) == ScanFrom(d1, ps, 1, tag);
    assert ScanFrom(d1, ps, 1, tag) == ScanFrom(d2, ps, 2, tag);
    assert ScanFrom(d2, ps, 2, tag) == ScanFrom(d2, ps, 3, tag);
    assert ScanFrom(d2, ps, 3, tag) == ScanFrom(d1, ps, 4, tag);
    assert ScanFrom(d1, ps, 4, tag) == ScanFrom(d, ps, 5, tag);
  }

  /** Opening pieces around one text, as `<li>nick<ol type="a">`. */
  lemma ScanOpenTextOpen(d: int, p1: Piece, x: string, p2: Piece, tag: Tag)
    requires d >= 0 && p1.Open? && p2.Open?
    ensures ScanParts(d, [p1, Text(x), p2], tag) == Some(d + D(p1.tag, tag) + D(p2.tag, tag))
  {
    var ps := [p1, Text(x), p2];
    var d1 := d + D(p1.tag, tag);
    assert ScanFrom(d, ps, 0, tag) == ScanFrom(d1, ps, 1, tag);
    assert ScanFrom(d1, ps, 1, tag) == ScanFrom(d1, ps, 2, tag);
    assert ScanFrom(d1, ps, 2, tag) == ScanFrom(d1 + D(p2.tag, tag), ps, 3, tag);
  }

  /** `<ul><li>sum`. */
  lemma ScanOpenOpenText(d: int, t1: Tag, t2: Tag, x: string, tag: Tag)
    requires d >= 0
    ensures ScanParts(d, [Open(t1, ""), Open(t2, ""), Text(x)], tag) == Some(d + D(t1, tag) + D(t2, tag))
  {
    var ps := [Open(t1, ""), Open(t2, ""), Text(x)];
    var d1 := d + D(t1, tag);
    var d2 := d1 + D(t2, tag);
    assert ScanFrom(d, ps, 0, tag) == ScanFrom(d1, ps, 1, tag);
    assert ScanFrom(d1, ps, 1, tag) == ScanFrom(d2, ps, 2, tag);
    assert ScanFrom(d2, ps, 2, tag) == ScanFrom(d2, ps, 3, tag);
  }

  /** `<t1><t2 …>x</t2>`: the vote link. */
  lemma ScanOpenWrapped(d: int, t1: Tag, t2: Tag, a: string, x: string, tag: Tag)
    requires d >= 0
    ensures ScanParts(d, [Open(t1, ""), Open(t2, a), Text(x), Close(t2)], tag) == Some(d + D(t1, tag))
  {
    var ps := [Open(t1, ""), Open(t2, a), Text(x), Close(t2)];
    var d1 := d + D(t1, tag);
    var d2 := d1 + D(t2, tag);
    assert ScanFrom(d, ps, 0, tag) == ScanFrom(d1, ps, 1, tag);
    assert ScanFrom(d1, ps, 1, tag) == ScanFrom(d2, ps, 2, tag);
    assert ScanFrom(d2, ps, 2, tag) == ScanFrom(d2, ps, 3, tag);
    assert ScanFrom(d2, ps, 3, tag) == ScanFrom(d1, ps, 4, tag);
  }

  /** `<li><b>UNASSIGNED</b><ol>`. */
  lemma ScanUnassignedHead(d: int, tag: Tag)
    requires d >= 0
    ensures ScanParts(d, [Open(Li, ""), Open(B, ""), Text("UNASSIGNED"), Close(B), Open(Ol, "")], tag) == Some(d + D(Li, tag) + D(Ol, tag))
  {
    var ps := [Open(Li, ""), Open(B, ""), Text("UNASSIGNED"), Close(B), Open(Ol, "")];
    var d1 := d + D(Li, tag);
    var d2 := d1 + D(B, tag);
    assert ScanFrom(d, ps, 0, tag) == ScanFrom(d1, ps, 1, tag);
    assert ScanFrom(d1, ps, 1, tag) == ScanFrom(d2, ps, 2, tag);
    assert ScanFrom(d2, ps, 2, tag) == ScanFrom(d2, ps, 3, tag);
    assert ScanFrom(d2, ps, 3, tag) == ScanFrom(d1, ps, 4, tag);
    assert ScanFrom(d1, ps, 4, tag) == ScanFrom(d1 + D(Ol, tag), ps, 5, tag);
  }

  /** `</t1></t2>`. */
  lemma ScanCloseClose(d: int, t1: Tag, t2: Tag, tag: Tag)
    requires d >= D(t1, tag) + D(t2, tag)
    ensures ScanParts(d, [Close(t1), Close(t2)], tag) == Some(d - D(t1, tag) - D(t2, tag))
  {
    var ps := [Close(t1), Close(t2)];
    assert ScanFrom(d, ps, 0, tag) == ScanFrom(d - D(t1, tag), ps, 1, tag);
    assert ScanFrom(d - D(t1, tag), ps, 1, tag) == ScanFrom(d - D(t1, tag) - D(t2, tag), ps, 2, tag);
  }

  lemma ScanLine(d: int, l: HtmlLine, tag: Tag)
    ensures ScanLines(d, [l], tag) == ScanParts(d, l.parts, tag)
  {
    assert [l][1..] == [];
  }

  // ---- Lists of entries ----

  /** One `<li>text</li>` line per text. */
  function EntryLines(texts: seq<string>, indent: nat): (r: seq<HtmlLine>)
    ensures |r| == |texts|
    decreases |texts|
  {
    if texts == [] then []
    else EntryLines(texts[..|texts| - 1], indent) + [HtmlLine(indent, [Open(Li, ""), Text(texts[|texts| - 1]), Close(Li)])]
  }

  lemma EntryLinesStep(texts: seq<string>, t: string, indent: nat)
    ensures EntryLines(texts + [t], indent) == EntryLines(texts, indent) + [HtmlLine(indent, [Open(Li, ""), Text(t), Close(Li)])]
  {
    assert (texts + [t])[..|texts|] == texts;
  }

  lemma {:induction false} EntryLinesScan(d: int, texts: seq<string>, indent: nat, tag: Tag)
    requires d >= 0
    ensures ScanLines(d, EntryLines(texts, indent), tag) == Some(d)
    decreases |texts|
  {
    if texts != [] {
      var front := texts[..|texts| - 1];
      var l := HtmlLine(indent, [Open(Li, ""), Text(texts[|texts| - 1]), Close(Li)]);
      EntryLinesScan(d, front, indent, tag);
      ScanLine(d, l, tag);
      ScanWrapped(d, Li, "", texts[|texts| - 1], tag);
      ScanLinesAppend(d, EntryLines(front, indent), [l], tag);
    }
  }

  lemma HeadingScan(d: int, name: string, tag: Tag)
    requires d >= 0
    ensures ScanLines(d, [Heading(name)], tag) == Some(d)
  {
    ScanLine(d, Heading(name), tag);
    ScanWrapped(d, H3, "", name, tag);
  }

  /** A headed `<ol>` around `body`, the frame of every HTML2 section. */
  function Framed(name: string, body: seq<HtmlLine>): seq<HtmlLine> {
    [Heading(name), HtmlLine(0, [Open(Ol, "")])] + body + [HtmlLine(0, [Close(Ol)])]
  }

  /** A block inside `<h3>` heading, `<ol>` and `</ol>`: balanced for every tag when its body is. */
  lemma FramedBalanced(name: string, body: seq<HtmlLine>, tag: Tag)
    requires ScanLines(D(Ol, tag), body, tag) == Some(D(Ol, tag))
    ensures Balanced(Framed(name, body), tag)
  {
    var head := [Heading(name), HtmlLine(0, [Open(Ol, "")])];
    HeadingScan(0, name, tag);
    ScanOnePiece(0, 0, Open(Ol, ""), tag);
    ScanLinesAppend(0, [Heading(name)], [HtmlLine(0, [Open(Ol, "")])], tag);
    assert [Heading(name)] + [HtmlLine(0, [Open(Ol, "")])] == head;
    ScanOnePiece(D(Ol, tag), 0, Close(Ol), tag);
    ScanLinesAppend(0, head, body, tag);
    ScanLinesAppend(0, head + body, [HtmlLine(0, [Close(Ol)])], tag);
  }
}
