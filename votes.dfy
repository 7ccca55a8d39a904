// The voting sub-machine of a meeting as values: who may cast, how a cast
// is recorded, how do_endvote classifies and counts the recorded casts, and
// the summary it stores.
module Votes {
  import opened Strings
  import opened Dicts
  import opened Grammar

  /** The three counters of do_endvote's loop. */
  datatype Counts = Counts(vfor: nat, against: nat, abstain: nat)

  /** One pass of the loop: `\+1\b` counts for, `-1\b` against, `[+-]?0\b` abstains. */
  function CountOne(c: Counts, v: string): Counts {
    match Classify(v)
    case For => c.(vfor := c.vfor + 1)
    case Against => c.(against := c.against + 1)
    case Abstain => c.(abstain := c.abstain + 1)
    case NoVote => c
  }

  /** The counters after the loop has seen `values` in order. */
  function Tally(values: seq<string>): Counts
    decreases |values|
  {
    if values == [] then Counts(0, 0, 0)
    else CountOne(Tally(values[..|values| - 1]), values[|values| - 1])
  }

  /** How many of the values fall in class k: an independent count, front to back. */
  function CountOf(values: seq<string>, k: VoteKind): (n: nat)
    ensures n <= |values|
    decreases |values|
  {
    if values == [] then 0
    else (if Classify(values[0]) == k then 1 else 0) + CountOf(values[1..], k)
  }

  lemma {:induction false} CountOfAppend(values: seq<string>, v: string, k: VoteKind)
    ensures CountOf(values + [v], k) == CountOf(values, k) + (if Classify(v) == k then 1 else 0)
    decreases |values|
  {
    if values == [] {
      assert [v][1..] == [];
    } else {
      assert (values + [v])[1..] == values[1..] + [v];
      CountOfAppend(values[1..], v, k);
    }
  }

  /** Each counter of the tally is the number of casts of its class. */
  lemma {:induction false} TallyCounts(values: seq<string>)
    ensures Tally(values) == Counts(CountOf(values, For), CountOf(values, Against), CountOf(values, Abstain))
    decreases |values|
  {
    if values != [] {
      var init := values[..|values| - 1];
      var v := values[|values| - 1];
      TallyCounts(init);
      assert values == init + [v];
      CountOfAppend(init, v, For);
      CountOfAppend(init, v, Against);
      CountOfAppend(init, v, Abstain);
    }
  }

  /** Every value lands in exactly one class. */
  lemma {:induction false} CountOfPartition(values: seq<string>)
    ensures CountOf(values, For) + CountOf(values, Against) + CountOf(values, Abstain)
      + CountOf(values, NoVote) == |values|
    decreases |values|
  {
    if values != [] {
      CountOfPartition(values[1..]);
    }
  }

  /** The three counters add up to the number of recorded casts when every cast is vote-shaped. */
  lemma TallyTotal(values: seq<string>)
    ensures Tally(values).vfor + Tally(values).against + Tally(values).abstain <= |values|
    ensures (forall i | 0 <= i < |values| :: VoteShaped(values[i])) ==>
      Tally(values).vfor + Tally(values).against + Tally(values).abstain == |values|
  {
    TallyCounts(values);
    CountOfPartition(values);
    if forall i | 0 <= i < |values| :: VoteShaped(values[i]) {
      NoVoteNone(values);
    }
  }

  lemma {:induction false} NoVoteNone(values: seq<string>)
    requires forall i | 0 <= i < |values| :: VoteShaped(values[i])
    ensures CountOf(values, NoVote) == 0
    decreases |values|
  {
    if values != [] {
      assert VoteShaped(values[0]);
      assert forall i | 0 <= i < |values| - 1 :: values[1..][i] == values[i + 1];
      NoVoteNone(values[1..]);
    }
  }

  /** The values of a dict in insertion order. */
  function Values<K, V>(d: seq<(K, V)>): (r: seq<V>)
    ensures |r| == |d|
    ensures forall i | 0 <= i < |d| :: r[i] == d[i].1
    decreases |d|
  {
    if d == [] then [] else Values(d[..|d| - 1]) + [d[|d| - 1].1]
  }

  /** The result word of do_endvote; the "Deadlock" branch after these two is never reached. */
  function Outcome(c: Counts, required: int): (r: string)
    ensures r == "Carried" <==> c.vfor - c.against >= required
    ensures r == "Carried" || r == "Denied"
  {
    if c.vfor - c.against >= required then "Carried" else "Denied"
  }

  /** "%s (For: %d, Against: %d, Abstained: %d)" with the motion sentence. */
  function Summary(c: Counts, required: int): string {
    var motion := if Outcome(c, required) == "Carried" then "Motion carried" else "Motion denied";
    motion + " (For: " + NatToString(c.vfor) + ", Against: " + NatToString(c.against)
      + ", Abstained: " + NatToString(c.abstain) + ")"
  }

  /** `if not self.voters or nick in self.voters: if self.activeVote:` */
  predicate MayCast(voters: seq<string>, activeVote: string, nick: string) {
    (voters == [] || nick in voters) && activeVote != ""
  }
}
