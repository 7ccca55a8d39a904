// Python dicts keep insertion order; the bot relies on it when it lists
// writers, votes and attendees.  A dict is modelled as a sequence of
// key/value pairs whose keys are distinct.
module Dicts {
  function Keys<K, V>(d: seq<(K, V)>): (r: seq<K>)
    ensures |r| == |d|
    ensures forall i | 0 <= i < |d| :: r[i] == d[i].0
    decreases |d|
  {
    if d == [] then [] else Keys(d[..|d| - 1]) + [d[|d| - 1].0]
  }

  predicate HasKey<K(==), V>(d: seq<(K, V)>, k: K) {
    exists i | 0 <= i < |d| :: d[i].0 == k
  }

  /** No element occurs twice: the keys of a dict whose values are all True. */
  predicate Distinct<T(==)>(s: seq<T>) {
    forall i, j | 0 <= i < j < |s| :: s[i] != s[j]
  }

  predicate UniqueKeys<K(==), V>(d: seq<(K, V)>) {
    forall i, j | 0 <= i < j < |d| :: d[i].0 != d[j].0
  }

  /** d[k]: the value stored under k. */
  function Get<K(==), V>(d: seq<(K, V)>, k: K): (v: V)
    requires HasKey(d, k)
    ensures exists i | 0 <= i < |d| :: d[i] == (k, v)
    ensures UniqueKeys(d) ==> forall i | 0 <= i < |d| && d[i].0 == k :: d[i].1 == v
  {
    if d[0].0 == k then d[0].1
    else
      assert HasKey(d[1..], k) by {
        var i :| 0 <= i < |d| && d[i].0 == k;
        assert d[1..][i - 1] == d[i];
      }
      var v := Get(d[1..], k);
      assert forall i | 1 <= i < |d| :: d[i] == d[1..][i - 1];
      v
  }

  /** The position of k. */
  function IndexOf<K(==), V>(d: seq<(K, V)>, k: K): (i: nat)
    requires HasKey(d, k)
    ensures i < |d| && d[i].0 == k
    ensures forall j | 0 <= j < i :: d[j].0 != k
  {
    if d[0].0 == k then 0
    else
      assert HasKey(d[1..], k) by {
        var i :| 0 <= i < |d| && d[i].0 == k;
        assert d[1..][i - 1] == d[i];
      }
      1 + IndexOf(d[1..], k)
  }

  /** d[k] = v: an existing key keeps its place, a new one goes last. */
  function Put<K(==), V>(d: seq<(K, V)>, k: K, v: V): (r: seq<(K, V)>)
    requires UniqueKeys(d)
    ensures HasKey(d, k) ==> |r| == |d|
    ensures !HasKey(d, k) ==> r == d + [(k, v)]
    ensures forall i | 0 <= i < |r| && r[i].0 == k :: r[i].1 == v
    ensures HasKey(r, k) && UniqueKeys(r)
  {
    if HasKey(d, k) then
      var i := IndexOf(d, k);
      var r := d[i := (k, v)];
      assert r[i].0 == k;
      r
    else
      var r := d + [(k, v)];
      assert r[|d|].0 == k;
      r
  }

  /** Put on a key the dict holds keeps every key in its place. */
  lemma PutSameKeys<K, V>(d: seq<(K, V)>, k: K, v: V)
    requires UniqueKeys(d) && HasKey(d, k)
    ensures Keys(Put(d, k, v)) == Keys(d)
  {
    var i := IndexOf(d, k);
    assert Put(d, k, v) == d[i := (k, v)];
  }

  /** Put leaves every other entry as it was. */
  lemma PutOthers<K, V>(d: seq<(K, V)>, k: K, v: V)
    requires UniqueKeys(d)
    ensures forall i | 0 <= i < |d| && d[i].0 != k :: d[i] in Put(d, k, v)
    ensures forall i | 0 <= i < |Put(d, k, v)| && Put(d, k, v)[i].0 != k :: Put(d, k, v)[i] in d
  {
    var r := Put(d, k, v);
    if HasKey(d, k) {
      var i := IndexOf(d, k);
      assert r == d[i := (k, v)];
      forall j | 0 <= j < |d| && d[j].0 != k ensures d[j] in r {
        assert r[j] == d[j];
      }
      forall j | 0 <= j < |r| && r[j].0 != k ensures r[j] in d {
        assert r[j] == d[j];
      }
    } else {
      forall j | 0 <= j < |d| && d[j].0 != k ensures d[j] in r {
        assert r[j] == d[j];
      }
    }
  }

  /** del d[k], for a key the dict holds: the pair leaves, the others keep their order. */
  function Remove<K(==), V>(d: seq<(K, V)>, k: K): (r: seq<(K, V)>)
    requires UniqueKeys(d) && HasKey(d, k)
    ensures |r| == |d| - 1 && !HasKey(r, k) && UniqueKeys(r)
  {
    var i := IndexOf(d, k);
    var r := d[..i] + d[i + 1..];
    assert forall j | 0 <= j < |r| :: r[j] == if j < i then d[j] else d[j + 1];
    r
  }

  /** What del d[k] keeps: exactly the pairs with another key. */
  lemma RemoveOthers<K, V>(d: seq<(K, V)>, k: K, x: (K, V))
    requires UniqueKeys(d) && HasKey(d, k)
    ensures x in Remove(d, k) <==> x in d && x.0 != k
  {
    var i := IndexOf(d, k);
    var r := Remove(d, k);
    assert forall j | 0 <= j < |r| :: r[j] == if j < i then d[j] else d[j + 1];
    if x in d && x.0 != k {
      var j :| 0 <= j < |d| && d[j] == x;
      assert j != i;
      if j < i { assert r[j] == x; } else { assert r[j - 1] == x; }
    }
  }
}
