// Action items by person (_BaseWriter.iterActionItemsNick and
// iterActionItemsUnassigned): attendees are visited in case-insensitive
// alphabetical order, each collects the ACTION items whose line names it
// as a whole word, and every item collected is marked `assigned`.  The
// marks live on the shared item objects, so they outlast one writer and
// decide what the unassigned list holds.
module ActionGroups {
  import opened Strings
  import opened Dicts
  import opened Items

  // ---- re.match(r'.*\b%s\b.*' % re.escape(nick), line, re.I) ----

  /** `\w` at position `p` (out of range is not a word character). */
  predicate WordAt(line: string, p: int) {
    0 <= p < |line| && IsWordChar(line[p])
  }

  /** `\b` at position `p`: a word character on exactly one side. */
  predicate Boundary(line: string, p: int) {
    WordAt(line, p - 1) != WordAt(line, p)
  }

  /** `\bnick\b` matches at `j`, ignoring case. */
  predicate MatchAt(line: string, nick: string, j: nat) {
    j + |nick| <= |line| && Lower(line[j..j + |nick|]) == Lower(nick)
    && Boundary(line, j) && Boundary(line, j + |nick|)
  }

  /** The leading `.*` runs from `j` up to a match without crossing a newline. */
  predicate MentionsFrom(line: string, nick: string, j: nat)
    requires j <= |line|
    decreases |line| - j
  {
    MatchAt(line, nick, j) || (j < |line| && line[j] != '\n' && MentionsFrom(line, nick, j + 1))
  }

  /** The pattern matches `line`. */
  predicate Mentions(line: string, nick: string) {
    MentionsFrom(line, nick, 0)
  }

  /** Where a match from `j` starts. */
  lemma {:induction false} MentionsFromWitness(line: string, nick: string, j: nat) returns (p: nat)
    requires j <= |line| && MentionsFrom(line, nick, j)
    ensures j <= p <= |line| && '\n' !in line[j..p] && MatchAt(line, nick, p)
    decreases |line| - j
  {
    if MatchAt(line, nick, j) {
      p := j;
      assert line[j..p] == [];
    } else {
      p := MentionsFromWitness(line, nick, j + 1);
      assert line[j..p] == [line[j]] + line[j + 1..p];
    }
  }

  /** A match at `p` with no newline before it is found from `j`. */
  lemma {:induction false} MentionsFromOf(line: string, nick: string, j: nat, p: nat)
    requires j <= p <= |line| && '\n' !in line[j..p] && MatchAt(line, nick, p)
    ensures MentionsFrom(line, nick, j)
    decreases p - j
  {
    if j < p {
      assert line[j] in line[j..p];
      assert line[j + 1..p] == line[j..p][1..];
      MentionsFromOf(line, nick, j + 1, p);
    }
  }

  /** A line names a nick exactly when, before its first newline, the nick stands there as a whole word in some case. */
  lemma MentionsIff(line: string, nick: string)
    ensures Mentions(line, nick)
      <==> exists p: nat :: p <= |line| && '\n' !in line[..p] && MatchAt(line, nick, p)
  {
    if Mentions(line, nick) {
      var p := MentionsFromWitness(line, nick, 0);
      assert line[0..p] == line[..p];
    }
    if exists p: nat :: p <= |line| && '\n' !in line[..p] && MatchAt(line, nick, p) {
      var p: nat :| p <= |line| && '\n' !in line[..p] && MatchAt(line, nick, p);
      assert line[0..p] == line[..p];
      MentionsFromOf(line, nick, 0, p);
    }
  }

  // ---- the grouping ----

  /** An item a nick's group collects. */
  predicate Hit(m: Item, nick: string) {
    m.itemtype == ActionItem && Mentions(m.line, nick)
  }

  /** sorted(attendees.keys(), key=lambda x: x.lower()). */
  function SortedNicks(attendees: seq<(string, nat)>): seq<string> {
    SortBy(Keys(attendees), LowerOrder())
  }

  /** Every attendee is visited once, in case-insensitive order. */
  lemma SortedNicksSpec(attendees: seq<(string, nat)>)
    ensures multiset(SortedNicks(attendees)) == multiset(Keys(attendees))
    ensures SortedBy(SortedNicks(attendees), LowerOrder())
  {
    SortBySorted(Keys(attendees), LowerOrder());
  }

  /** The items one nick's generator yields, in minutes order. */
  function NickItems(ms: seq<Item>, nick: string): (r: seq<Item>)
    decreases |ms|
  {
    if ms == [] then []
    else NickItems(ms[..|ms| - 1], nick) + (if Hit(ms[|ms| - 1], nick) then [ms[|ms| - 1]] else [])
  }

  lemma {:induction false} NickItemsIff(ms: seq<Item>, nick: string, x: Item)
    ensures x in NickItems(ms, nick) <==> x in ms && Hit(x, nick)
    decreases |ms|
  {
    if ms != [] {
      NickItemsIff(ms[..|ms| - 1], nick, x);
      assert ms == ms[..|ms| - 1] + [ms[|ms| - 1]];
    }
  }

  /** What iterActionItemsNick yields: every nick, with its items. */
  function NickGroups(ms: seq<Item>, nicks: seq<string>): (r: seq<(string, seq<Item>)>)
    decreases |nicks|
  {
    if nicks == [] then []
    else NickGroups(ms, nicks[..|nicks| - 1]) + [(nicks[|nicks| - 1], NickItems(ms, nicks[|nicks| - 1]))]
  }

  /** One group per nick, in the order given, holding exactly the ACTION items that name that nick. */
  lemma {:induction false} NickGroupsSpec(ms: seq<Item>, nicks: seq<string>)
    ensures |NickGroups(ms, nicks)| == |nicks|
    ensures forall k | 0 <= k < |nicks| :: NickGroups(ms, nicks)[k].0 == nicks[k]
    ensures forall k, x | 0 <= k < |nicks| :: x in NickGroups(ms, nicks)[k].1 <==> x in ms && Hit(x, nicks[k])
    decreases |nicks|
  {
    if nicks != [] {
      var front := nicks[..|nicks| - 1];
      NickGroupsSpec(ms, front);
      forall x ensures x in NickItems(ms, nicks[|nicks| - 1]) <==> x in ms && Hit(x, nicks[|nicks| - 1]) {
        NickItemsIff(ms, nicks[|nicks| - 1], x);
      }
    }
  }

  /** No item marked yet: getattr(m, 'assigned', False). */
  function NoMarks(n: nat): (r: seq<bool>)
    ensures |r| == n && forall k | 0 <= k < n :: !r[k]
  {
    if n == 0 then [] else NoMarks(n - 1) + [false]
  }

  /** The marks after one nick's generator has run to the end. */
  function MarkNick(ms: seq<Item>, a: seq<bool>, nick: string): (r: seq<bool>)
    requires |a| == |ms|
    ensures |r| == |a|
    ensures forall k | 0 <= k < |a| :: r[k] == (a[k] || Hit(ms[k], nick))
    decreases |ms|
  {
    if ms == [] then []
    else [a[0] || Hit(ms[0], nick)] + MarkNick(ms[1..], a[1..], nick)
  }

  /** The marks after the generators of `nicks` have run, in order. */
  function MarkedBy(ms: seq<Item>, a: seq<bool>, nicks: seq<string>): (r: seq<bool>)
    requires |a| == |ms|
    ensures |r| == |a|
    decreases |nicks|
  {
    if nicks == [] then a
    else MarkNick(ms, MarkedBy(ms, a, nicks[..|nicks| - 1]), nicks[|nicks| - 1])
  }

  /** An item some nick of `nicks` collects. */
  predicate Claimed(m: Item, nicks: seq<string>) {
    exists n | n in nicks :: Hit(m, n)
  }

  /** After the grouping an item is marked exactly when it was already, or some visited nick collected it. */
  lemma {:induction false} MarkedByIff(ms: seq<Item>, a: seq<bool>, nicks: seq<string>, k: nat)
    requires |a| == |ms| && k < |ms|
    ensures MarkedBy(ms, a, nicks)[k] <==> a[k] || Claimed(ms[k], nicks)
    decreases |nicks|
  {
    if nicks != [] {
      var front := nicks[..|nicks| - 1];
      MarkedByIff(ms, a, front, k);
      assert nicks == front + [nicks[|nicks| - 1]];
      assert forall n :: n in nicks <==> n in front || n == nicks[|nicks| - 1];
    }
  }

  /** iterActionItemsUnassigned: the ACTION items not marked, in minutes order. */
  function Unassigned(ms: seq<Item>, a: seq<bool>): (r: seq<Item>)
    requires |a| == |ms|
    decreases |ms|
  {
    if ms == [] then []
    else
      var n := |ms| - 1;
      Unassigned(ms[..n], a[..n]) + (if ms[n].itemtype == ActionItem && !a[n] then [ms[n]] else [])
  }

  /** The ACTION items no nick of `nicks` collects, in minutes order. */
  function Unclaimed(ms: seq<Item>, nicks: seq<string>): (r: seq<Item>)
    decreases |ms|
  {
    if ms == [] then []
    else
      var n := |ms| - 1;
      Unclaimed(ms[..n], nicks) + (if ms[n].itemtype == ActionItem && !Claimed(ms[n], nicks) then [ms[n]] else [])
  }

  lemma {:induction false} UnassignedUnclaimed(ms: seq<Item>, a: seq<bool>, nicks: seq<string>)
    requires |a| == |ms|
    requires forall k | 0 <= k < |ms| && ms[k].itemtype == ActionItem :: a[k] == Claimed(ms[k], nicks)
    ensures Unassigned(ms, a) == Unclaimed(ms, nicks)
    decreases |ms|
  {
    if ms != [] {
      var n := |ms| - 1;
      UnassignedUnclaimed(ms[..n], a[..n], nicks);
    }
  }

  /**
   * On fresh items, after the grouping the unassigned list holds exactly
   * the ACTION items that name no attendee: together with the groups it
   * covers every ACTION item.
   */
  lemma UnassignedAfterGrouping(ms: seq<Item>, nicks: seq<string>)
    ensures Unassigned(ms, MarkedBy(ms, NoMarks(|ms|), nicks)) == Unclaimed(ms, nicks)
  {
    var a := MarkedBy(ms, NoMarks(|ms|), nicks);
    forall k | 0 <= k < |ms| && ms[k].itemtype == ActionItem ensures a[k] == Claimed(ms[k], nicks) {
      MarkedByIff(ms, NoMarks(|ms|), nicks, k);
    }
    UnassignedUnclaimed(ms, a, nicks);
  }

  /** The `assigned` attributes of the items of one minutes list, in order. */
  class ActionMarks {
    var marked: seq<bool>

    constructor (n: nat)
      ensures marked == NoMarks(n)
    {
      marked := NoMarks(n);
    }
  }

  /** One nick's generator, run to the end: yields its items and marks them. */
  method CollectNick(ms: seq<Item>, nick: string, marks: ActionMarks) returns (items: seq<Item>)
    requires |marks.marked| == |ms|
    modifies marks
    ensures items == NickItems(ms, nick)
    ensures marks.marked == MarkNick(ms, old(marks.marked), nick)
  {
    ghost var a0 := marks.marked;
    items := [];
    var j := 0;
    while j < |ms|
      invariant 0 <= j <= |ms| && |marks.marked| == |ms|
      invariant items == NickItems(ms[..j], nick)
      invariant forall k | 0 <= k < j :: marks.marked[k] == (a0[k] || Hit(ms[k], nick))
      invariant forall k | j <= k < |ms| :: marks.marked[k] == a0[k]
    {
      var m := ms[j];
      assert ms[..j + 1][..j] == ms[..j];
      if m.itemtype == ActionItem && Mentions(m.line, nick) {
        marks.marked := marks.marked[j := true];
        items := items + [m];
      }
      j := j + 1;
    }
    assert ms[..|ms|] == ms;
  }

  /** The generators of `nicks`, each run to the end in turn. */
  method CollectNicks(ms: seq<Item>, nicks: seq<string>, marks: ActionMarks)
    returns (groups: seq<(string, seq<Item>)>)
    requires |marks.marked| == |ms|
    modifies marks
    ensures groups == NickGroups(ms, nicks)
    ensures marks.marked == MarkedBy(ms, old(marks.marked), nicks)
  {
    ghost var a0 := marks.marked;
    groups := [];
    var i := 0;
    while i < |nicks|
      invariant 0 <= i <= |nicks| && |marks.marked| == |ms|
      invariant groups == NickGroups(ms, nicks[..i])
      invariant marks.marked == MarkedBy(ms, a0, nicks[..i])
    {
      assert nicks[..i + 1][..i] == nicks[..i];
      var items := CollectNick(ms, nicks[i], marks);
      groups := groups + [(nicks[i], items)];
      i := i + 1;
    }
    assert nicks[..|nicks|] == nicks;
  }

  /** iterActionItemsNick, with every generator consumed (as all its callers do). */
  method ActionItemsNick(ms: seq<Item>, attendees: seq<(string, nat)>, marks: ActionMarks)
    returns (groups: seq<(string, seq<Item>)>)
    requires |marks.marked| == |ms|
    modifies marks
    ensures groups == NickGroups(ms, SortedNicks(attendees))
    ensures marks.marked == MarkedBy(ms, old(marks.marked), SortedNicks(attendees))
  {
    groups := CollectNicks(ms, SortedNicks(attendees), marks);
  }

  /** iterActionItemsUnassigned on the marks as they stand. */
  method ActionItemsUnassigned(ms: seq<Item>, marks: ActionMarks) returns (items: seq<Item>)
    requires |marks.marked| == |ms|
    ensures items == Unassigned(ms, marks.marked)
  {
    items := [];
    var j := 0;
    while j < |ms|
      invariant 0 <= j <= |ms|
      invariant items == Unassigned(ms[..j], marks.marked[..j])
    {
      assert ms[..j + 1][..j] == ms[..j] && marks.marked[..j + 1][..j] == marks.marked[..j];
      if ms[j].itemtype == ActionItem && !marks.marked[j] {
        items := items + [ms[j]];
      }
      j := j + 1;
    }
    assert ms[..|ms|] == ms && marks.marked[..|ms|] == marks.marked;
  }
}
