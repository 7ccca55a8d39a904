// The nick lines of the `pingall` command: the channel's users, sorted
// case-insensitively, each followed by a blank, cut into lines as soon as
// a line grows past 256 characters.

module Ping {
  import opened Strings

  /** A line is sent as soon as it is longer than this. */
  const PingWidth := 256

  /** The nicks as they are appended to nickline: each followed by one blank. */
  function Spaced(ns: seq<string>): (r: string)
    decreases |ns|
  {
    if ns == [] then "" else Spaced(ns[..|ns| - 1]) + ns[|ns| - 1] + " "
  }

  lemma {:induction false} SpacedAppend(a: seq<string>, c: seq<string>)
    ensures Spaced(a + c) == Spaced(a) + Spaced(c)
    decreases |c|
  {
    if c == [] {
      assert a + c == a;
    } else {
      var init := c[..|c| - 1];
      assert (a + c)[..|a + c| - 1] == a + init;
      assert (a + c)[|a + c| - 1] == c[|c| - 1];
      SpacedAppend(a, init);
    }
  }

  /** Spaced of a longer prefix is the shorter one's plus the next nick. */
  lemma SpacedStep(ns: seq<string>, i: nat)
    requires i < |ns|
    ensures Spaced(ns[..i + 1]) == Spaced(ns[..i]) + ns[i] + " "
  {
    assert ns[..i + 1][..i] == ns[..i];
  }

  /** The groups in order, one after another. */
  function Flatten(gs: seq<seq<string>>): (r: seq<string>)
    decreases |gs|
  {
    if gs == [] then [] else Flatten(gs[..|gs| - 1]) + gs[|gs| - 1]
  }

  /**
   * The loop's state after the nicks `ns`: the groups already sent and the
   * nicks of the pending nickline.
   */
  function Groups(ns: seq<string>): (r: (seq<seq<string>>, seq<string>))
    decreases |ns|
  {
    if ns == [] then ([], [])
    else
      var prev := Groups(ns[..|ns| - 1]);
      var q := prev.1 + [ns[|ns| - 1]];
      if |Spaced(q)| > PingWidth then (prev.0 + [q], []) else (prev.0, q)
  }

  /** A sent group: its line is too long, and it was not before its last nick joined. */
  predicate Full(g: seq<string>) {
    g != [] && |Spaced(g)| > PingWidth && |Spaced(g[..|g| - 1])| <= PingWidth
  }

  predicate AllFull(gs: seq<seq<string>>) {
    forall i | 0 <= i < |gs| :: Full(gs[i])
  }

  /** The loop's state after one more nick. */
  lemma GroupsStep(ns: seq<string>, i: nat)
    requires i < |ns|
    ensures var prev := Groups(ns[..i]);
      var q := prev.1 + [ns[i]];
      Groups(ns[..i + 1]) == if |Spaced(q)| > PingWidth then (prev.0 + [q], []) else (prev.0, q)
  {
    assert ns[..i + 1][..i] == ns[..i];
  }

  lemma FlattenLast(gs: seq<seq<string>>, g: seq<string>)
    ensures Flatten(gs + [g]) == Flatten(gs) + g
  {
    assert (gs + [g])[..|gs|] == gs;
  }

  /** Every nick lands in exactly one line, in order. */
  lemma {:induction false} GroupsFlatten(ns: seq<string>)
    ensures Flatten(Groups(ns).0) + Groups(ns).1 == ns
    decreases |ns|
  {
    if ns != [] {
      var init := ns[..|ns| - 1];
      GroupsFlatten(init);
      var prev := Groups(init);
      var q := prev.1 + [ns[|ns| - 1]];
      assert Flatten(prev.0) + q == ns by {
        assert ns == init + [ns[|ns| - 1]];
      }
      if |Spaced(q)| > PingWidth {
        assert Groups(ns) == (prev.0 + [q], []);
        FlattenLast(prev.0, q);
      } else {
        assert Groups(ns) == (prev.0, q);
      }
    }
  }

  /** The pending nickline stays within 256 characters. */
  lemma {:induction false} GroupsPending(ns: seq<string>)
    ensures |Spaced(Groups(ns).1)| <= PingWidth
    decreases |ns|
  {
    if ns != [] {
      GroupsPending(ns[..|ns| - 1]);
    }
  }

  /** Every sent line passed 256 characters with its last nick, and not before. */
  lemma {:induction false} GroupsFull(ns: seq<string>)
    ensures AllFull(Groups(ns).0)
    decreases |ns|
  {
    if ns != [] {
      var init := ns[..|ns| - 1];
      GroupsFull(init);
      GroupsPending(init);
      var prev := Groups(init);
      var q := prev.1 + [ns[|ns| - 1]];
      if |Spaced(q)| > PingWidth {
        assert q[..|q| - 1] == prev.1;
        assert Full(q);
        var gs := prev.0 + [q];
        forall i | 0 <= i < |gs| ensures Full(gs[i]) {
          if i < |prev.0| {
            assert gs[i] == prev.0[i];
          }
        }
      }
    }
  }

  /** The texts of the sent groups. */
  function Texts(gs: seq<seq<string>>): (r: seq<string>)
    ensures |r| == |gs|
    ensures forall i | 0 <= i < |gs| :: r[i] == Spaced(gs[i])
    decreases |gs|
  {
    if gs == [] then [] else Texts(gs[..|gs| - 1]) + [Spaced(gs[|gs| - 1])]
  }

  /**
   * One more nick: the pending line grows by the nick and a blank, and it
   * is sent, leaving an empty one, once it is longer than 256 characters.
   */
  lemma GroupsNext(ns: seq<string>, i: nat)
    requires i < |ns|
    ensures var g := Groups(ns[..i]); var h := Groups(ns[..i + 1]);
      var line := Spaced(g.1) + ns[i] + " ";
      if |line| > PingWidth then Texts(h.0) == Texts(g.0) + [line] && Spaced(h.1) == ""
      else Texts(h.0) == Texts(g.0) && Spaced(h.1) == line
  {
    GroupsStep(ns, i);
    var g := Groups(ns[..i]);
    var q := g.1 + [ns[i]];
    assert q[..|q| - 1] == g.1;
    if |Spaced(q)| > PingWidth {
      var gs := g.0 + [q];
      assert gs[..|gs| - 1] == g.0;
    }
  }

  /** Every privmsg line of nicks, the final (possibly empty) nickline included. */
  function PingChunks(ns: seq<string>): (r: seq<string>) {
    Texts(Groups(ns).0) + [Spaced(Groups(ns).1)]
  }

  /** The lines one after another. */
  function Concat(ls: seq<string>): (r: string)
    decreases |ls|
  {
    if ls == [] then "" else Concat(ls[..|ls| - 1]) + ls[|ls| - 1]
  }

  lemma {:induction false} ConcatTexts(gs: seq<seq<string>>)
    ensures Concat(Texts(gs)) == Spaced(Flatten(gs))
    decreases |gs|
  {
    if gs != [] {
      var init := gs[..|gs| - 1];
      ConcatTexts(init);
      SpacedAppend(Flatten(init), gs[|gs| - 1]);
      assert Texts(gs)[..|Texts(gs)| - 1] == Texts(init);
    }
  }

  /**
   * The pingall lines: together they spell every nick once, in order, each
   * with its blank; every line but the last is over 256 characters, and
   * was not until its last nick; the last is at most 256.
   */
  lemma PingChunksSpec(ns: seq<string>)
    ensures Concat(PingChunks(ns)) == Spaced(ns)
    ensures |PingChunks(ns)| >= 1 && |PingChunks(ns)[|PingChunks(ns)| - 1]| <= PingWidth
    ensures forall i | 0 <= i < |PingChunks(ns)| - 1 :: |PingChunks(ns)[i]| > PingWidth
    ensures Flatten(Groups(ns).0) + Groups(ns).1 == ns && AllFull(Groups(ns).0)
  {
    var g := Groups(ns);
    GroupsFlatten(ns);
    GroupsFull(ns);
    GroupsPending(ns);
    ConcatTexts(g.0);
    var r := PingChunks(ns);
    assert r[..|r| - 1] == Texts(g.0);
    SpacedAppend(Flatten(g.0), g.1);
    forall i | 0 <= i < |r| - 1 ensures |r[i]| > PingWidth {
      assert r[i] == Spaced(g.0[i]);
      assert Full(g.0[i]);
    }
  }

  /** The nicks in the order pingall sends them: sorted on their lower-case form, stably. */
  function PingOrder(users: seq<string>): (r: seq<string>)
    ensures multiset(r) == multiset(users) && SortedBy(r, LowerOrder())
  {
    SortBySorted(users, LowerOrder());
    SortBy(users, LowerOrder())
  }
}
