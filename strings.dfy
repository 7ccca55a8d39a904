// The Python string operations the bot relies on (str.strip, str.split,
// str.replace, str.join, str.lower, re.split on a character class, sorted,
// '%d' and '%(name)s' formatting), written out over seq<char>.
module Strings {
  import opened Wrappers

  /** Python's str.isspace for one character (also what `\s` matches in a str pattern). */
  predicate IsSpace(c: char) {
    c == ' ' || c == '\t' || c == '\n' || c == '\r' || c == '\U{000B}' || c == '\U{000C}'
    || ('\U{001C}' <= c <= '\U{001F}') || c == '\U{0085}' || c == '\U{00A0}' || c == '\U{1680}'
    || ('\U{2000}' <= c <= '\U{200A}') || c == '\U{2028}' || c == '\U{2029}' || c == '\U{202F}'
    || c == '\U{205F}' || c == '\U{3000}'
  }

  predicate NotSpace(c: char) { !IsSpace(c) }

  /** `\w`, restricted to ASCII letters, digits and underscore. */
  predicate IsWordChar(c: char) {
    ('a' <= c <= 'z') || ('A' <= c <= 'Z') || ('0' <= c <= '9') || c == '_'
  }

  predicate IsDigit(c: char) { '0' <= c <= '9' }

  /** str.lower on one character, restricted to ASCII. */
  function LowerChar(c: char): (r: char)
    ensures 'A' <= c <= 'Z' ==> 'a' <= r <= 'z'
    ensures !('A' <= c <= 'Z') ==> r == c
  {
    if 'A' <= c <= 'Z' then (c as int + 32) as char else c
  }

  function Lower(s: string): (r: string)
    ensures |r| == |s|
    ensures forall i | 0 <= i < |s| :: r[i] == LowerChar(s[i])
  {
    seq(|s|, i requires 0 <= i < |s| => LowerChar(s[i]))
  }

  predicate StartsWith(s: string, prefix: string) {
    |prefix| <= |s| && s[..|prefix|] == prefix
  }

  predicate EndsWith(s: string, suffix: string) {
    |suffix| <= |s| && s[|s| - |suffix|..] == suffix
  }

  /** `sub` occurs in `s` starting at index `j`. */
  predicate OccursAt(s: string, sub: string, j: nat) {
    j + |sub| <= |s| && s[j..j + |sub|] == sub
  }

  /** Python's `sub in s`. */
  predicate Contains(s: string, sub: string) {
    exists j: nat :: j <= |s| && OccursAt(s, sub, j)
  }

  /** str.find starting at `i`: the leftmost occurrence at or after `i`. */
  function FindFrom(s: string, sub: string, i: nat): (r: Option<nat>)
    requires i <= |s|
    ensures r.Some? ==> i <= r.value && OccursAt(s, sub, r.value)
    ensures r.Some? ==> forall j: nat | i <= j < r.value :: !OccursAt(s, sub, j)
    ensures r.None? ==> forall j: nat | i <= j :: !OccursAt(s, sub, j)
    decreases |s| - i
  {
    if i + |sub| > |s| then None
    else if s[i..i + |sub|] == sub then Some(i)
    else FindFrom(s, sub, i + 1)
  }

  /** The first index at or after `i` whose character fails `p` (or |s|). */
  function SkipWhile(s: string, i: nat, p: char -> bool): (j: nat)
    requires i <= |s|
    ensures i <= j <= |s|
    ensures forall k | i <= k < j :: p(s[k])
    ensures j == |s| || !p(s[j])
    decreases |s| - i
  {
    if i == |s| || !p(s[i]) then i else SkipWhile(s, i + 1, p)
  }

  /** SkipWhile stops at the one index that ends a run of `p` characters starting at `i`. */
  lemma {:induction false} SkipWhileIs(s: string, i: nat, p: char -> bool, j: nat)
    requires i <= j <= |s| && (j == |s| || !p(s[j]))
    requires forall k | i <= k < j :: p(s[k])
    ensures SkipWhile(s, i, p) == j
    decreases |s| - i
  {
    if i < j {
      SkipWhileIs(s, i + 1, p, j);
    }
  }

  /** The end of `s` once trailing characters satisfying `p` are dropped. */
  function TrimEnd(s: string, p: char -> bool): (j: nat)
    ensures j <= |s|
    ensures forall k | j <= k < |s| :: p(s[k])
    ensures j == 0 || !p(s[j - 1])
  {
    if s == [] || !p(s[|s| - 1]) then |s| else TrimEnd(s[..|s| - 1], p)
  }

  /** str.lstrip / rstrip / strip with a character predicate. */
  function LStrip(s: string, p: char -> bool): (r: string)
    ensures |r| <= |s|
    ensures r == [] || !p(r[0])
    ensures forall k | 0 <= k < |s| - |r| :: p(s[k])
  {
    s[SkipWhile(s, 0, p)..]
  }

  function RStrip(s: string, p: char -> bool): (r: string)
    ensures |r| <= |s|
    ensures r == [] || !p(r[|r| - 1])
    ensures forall k | |r| <= k < |s| :: p(s[k])
  {
    s[..TrimEnd(s, p)]
  }

  function Strip(s: string, p: char -> bool): string {
    RStrip(LStrip(s, p), p)
  }

  function StripSpace(s: string): string { Strip(s, IsSpace) }

  /** str.replace(pat, repl): leftmost, non-overlapping occurrences. */
  function Replace(s: string, pat: string, repl: string): string
    requires |pat| > 0
    decreases |s|
  {
    if |s| < |pat| then s
    else if s[..|pat|] == pat then repl + Replace(s[|pat|..], pat, repl)
    else [s[0]] + Replace(s[1..], pat, repl)
  }

  /** Replacing a one-character pattern maps each character on its own. */
  function MapChar(s: string, c: char, repl: string): (r: string)
    ensures c !in s ==> r == s
  {
    if s == [] then [] else (if s[0] == c then repl else [s[0]]) + MapChar(s[1..], c, repl)
  }

  lemma {:induction false} MapCharAppend(a: string, b: string, c: char, repl: string)
    ensures MapChar(a + b, c, repl) == MapChar(a, c, repl) + MapChar(b, c, repl)
  {
    if a != [] {
      assert (a + b)[1..] == a[1..] + b;
      MapCharAppend(a[1..], b, c, repl);
    } else {
      assert a + b == b;
    }
  }

  lemma {:induction false} ReplaceOneChar(s: string, c: char, repl: string)
    ensures Replace(s, [c], repl) == MapChar(s, c, repl)
    decreases |s|
  {
    if |s| >= 1 {
      ReplaceOneChar(s[1..], c, repl);
    }
  }

  /** str.split(sep) for a non-empty separator. */
  function Split(s: string, sep: string): (r: seq<string>)
    requires |sep| > 0
    ensures |r| >= 1
    decreases |s|
  {
    match FindFrom(s, sep, 0)
    case None => [s]
    case Some(i) => [s[..i]] + Split(s[i + |sep|..], sep)
  }

  /** Splitting `a + [c] + rest` on `c` when `a` holds no `c`. */
  lemma SplitAtChar(a: string, c: char, rest: string)
    requires c !in a
    ensures Split(a + [c] + rest, [c]) == [a] + Split(rest, [c])
  {
    var s := a + [c] + rest;
    assert OccursAt(s, [c], |a|);
    forall j: nat | j < |a| ensures !OccursAt(s, [c], j) {
      assert s[j] == a[j];
    }
    assert FindFrom(s, [c], 0) == Some(|a|);
    assert s[..|a|] == a;
    assert s[|a| + 1..] == rest;
  }

  lemma SplitWithoutChar(a: string, c: char)
    requires c !in a
    ensures Split(a, [c]) == [a]
  {
    forall j: nat | j + 1 <= |a| ensures !OccursAt(a, [c], j) {
      assert a[j] in a;
      assert a[j..j + 1] == [a[j]];
    }
  }

  /** str.split(sep, 1): the text before the first separator and, if there is one, the rest. */
  function SplitOnce(s: string, sep: string): (r: (string, Option<string>))
    requires |sep| > 0
    ensures r.1.None? ==> r.0 == s && !Contains(s, sep)
    ensures r.1.Some? ==> s == r.0 + sep + r.1.value && !Contains(r.0, sep)
  {
    match FindFrom(s, sep, 0)
    case None => (s, None)
    case Some(i) =>
      assert s == s[..i] + sep + s[i + |sep|..] by {
        assert s[i..i + |sep|] == sep;
      }
      assert !Contains(s[..i], sep) by {
        forall j: nat | j <= i ensures !OccursAt(s[..i], sep, j) {
          if OccursAt(s[..i], sep, j) {
            assert s[..i][j..j + |sep|] == s[j..j + |sep|];
            assert OccursAt(s, sep, j);
          }
        }
      }
      (s[..i], Some(s[i + |sep|..]))
  }

  /** re.split on maximal runs of separator characters (empty pieces kept, as Python does). */
  function SplitRuns(s: string, isSep: char -> bool): (r: seq<string>)
    ensures |r| >= 1
    ensures forall k | 0 <= k < |r| :: forall c | c in r[k] :: !isSep(c)
    decreases |s|
  {
    var i := SkipWhile(s, 0, c => !isSep(c));
    if i == |s| then [s]
    else
      var j := SkipWhile(s, i, isSep);
      [s[..i]] + SplitRuns(s[j..], isSep)
  }

  /** str.split() with no argument: the maximal runs of non-whitespace. */
  function SplitWhitespace(s: string): (r: seq<string>)
    ensures forall k | 0 <= k < |r| :: r[k] != [] && forall c | c in r[k] :: !IsSpace(c)
    decreases |s|
  {
    var i := SkipWhile(s, 0, IsSpace);
    if i == |s| then []
    else
      var j := SkipWhile(s, i, NotSpace);
      [s[i..j]] + SplitWhitespace(s[j..])
  }

  /** sep.join(parts). */
  function Join(sep: string, parts: seq<string>): string {
    if parts == [] then ""
    else if |parts| == 1 then parts[0]
    else parts[0] + sep + Join(sep, parts[1..])
  }

  /** `c * n`: the character repeated n times. */
  function Repeat(c: char, n: nat): (r: string)
    ensures |r| == n && forall i | 0 <= i < n :: r[i] == c
  {
    seq(n, _ => c)
  }

  /** Every character is a decimal digit. */
  predicate AllDigits(s: string) {
    forall k | 0 <= k < |s| :: IsDigit(s[k])
  }

  /** The decimal digits of a natural number, as '%d' prints them. */
  function NatToString(n: nat): (r: string)
    ensures |r| >= 1
    ensures AllDigits(r)
  {
    if n < 10 then [('0' as int + n) as char]
    else NatToString(n / 10) + [('0' as int + n % 10) as char]
  }

  function IntToString(i: int): (r: string)
    ensures i >= 0 ==> r == NatToString(i)
    ensures i < 0 ==> r == "-" + NatToString(-i)
  {
    if i >= 0 then NatToString(i) else "-" + NatToString(-i)
  }

  /** Python's ordering of str values: lexicographic on code points. */
  predicate StrLe(a: string, b: string) {
    a == [] || (b != [] && (a[0] < b[0] || (a[0] == b[0] && StrLe(a[1..], b[1..]))))
  }

  lemma {:induction false} StrLeTotal(a: string, b: string)
    ensures StrLe(a, b) || StrLe(b, a)
  {
    if a != [] && b != [] && a[0] == b[0] {
      StrLeTotal(a[1..], b[1..]);
    }
  }

  lemma {:induction false} StrLeTransitive(a: string, b: string, c: string)
    requires StrLe(a, b) && StrLe(b, c)
    ensures StrLe(a, c)
  {
    if a != [] && a[0] == b[0] && b[0] == c[0] {
      StrLeTransitive(a[1..], b[1..], c[1..]);
    }
  }

  lemma {:induction false} StrLeAntisymmetric(a: string, b: string)
    requires StrLe(a, b) && StrLe(b, a)
    ensures a == b
  {
    if a != [] && b != [] {
      StrLeAntisymmetric(a[1..], b[1..]);
      assert a == [a[0]] + a[1..];
      assert b == [b[0]] + b[1..];
    }
  }

  // ---------------------------------------------------------------------
  // Python's stable sort, as an insertion sort over a "goes no later than"
  // relation.  `le(x, y)` means x may be placed before y.

  ghost predicate TotalPreorder<T(!new)>(le: (T, T) -> bool) {
    (forall a, b :: le(a, b) || le(b, a))
    && (forall a, b, c :: le(a, b) && le(b, c) ==> le(a, c))
  }

  predicate SortedBy<T>(s: seq<T>, le: (T, T) -> bool) {
    forall i, j | 0 <= i < j < |s| :: le(s[i], s[j])
  }

  /** Insert `x` before the first element it may precede (so earlier input stays earlier). */
  function InsertBy<T>(x: T, s: seq<T>, le: (T, T) -> bool): (r: seq<T>)
    ensures multiset(r) == multiset(s) + multiset{x}
  {
    if s == [] || le(x, s[0]) then [x] + s
    else
      assert s == [s[0]] + s[1..];
      [s[0]] + InsertBy(x, s[1..], le)
  }

  function SortBy<T>(s: seq<T>, le: (T, T) -> bool): (r: seq<T>)
    ensures multiset(r) == multiset(s)
  {
    if s == [] then []
    else
      assert s == [s[0]] + s[1..];
      InsertBy(s[0], SortBy(s[1..], le), le)
  }

  lemma {:induction false} InsertBySorted<T(!new)>(x: T, s: seq<T>, le: (T, T) -> bool)
    requires TotalPreorder(le) && SortedBy(s, le)
    ensures SortedBy(InsertBy(x, s, le), le)
    decreases |s|
  {
    if s == [] || le(x, s[0]) {
    } else {
      assert le(s[0], x);
      InsertBySorted(x, s[1..], le);
      var tail := InsertBy(x, s[1..], le);
      forall k | 0 <= k < |tail| ensures le(s[0], tail[k]) {
        assert tail[k] in multiset(tail);
        assert tail[k] == x || tail[k] in multiset(s[1..]);
        if tail[k] != x {
          var m :| 0 <= m < |s[1..]| && s[1..][m] == tail[k];
          assert s[1 + m] == tail[k];
        }
      }
    }
  }

  lemma {:induction false} SortBySorted<T(!new)>(s: seq<T>, le: (T, T) -> bool)
    requires TotalPreorder(le)
    ensures SortedBy(SortBy(s, le), le)
  {
    if s != [] {
      SortBySorted(s[1..], le);
      InsertBySorted(s[0], SortBy(s[1..], le), le);
    }
  }

  /** The order of Python's sorted() on str values. */
  function StringOrder(): (le: (string, string) -> bool)
    ensures TotalPreorder(le)
  {
    forall a, b ensures StrLe(a, b) || StrLe(b, a) { StrLeTotal(a, b); }
    forall a, b, c | StrLe(a, b) && StrLe(b, c) ensures StrLe(a, c) { StrLeTransitive(a, b, c); }
    (a: string, b: string) => StrLe(a, b)
  }

  /** sorted(..., key=lambda x: x.lower()). */
  function LowerOrder(): (le: (string, string) -> bool)
    ensures TotalPreorder(le)
  {
    forall a, b ensures StrLe(Lower(a), Lower(b)) || StrLe(Lower(b), Lower(a)) {
      StrLeTotal(Lower(a), Lower(b));
    }
    forall a, b, c | StrLe(Lower(a), Lower(b)) && StrLe(Lower(b), Lower(c))
      ensures StrLe(Lower(a), Lower(c)) {
      StrLeTransitive(Lower(a), Lower(b), Lower(c));
    }
    (a: string, b: string) => StrLe(Lower(a), Lower(b))
  }

  /** The distinct elements of `s`, first occurrence kept. */
  function Dedup(s: seq<string>): (r: seq<string>)
    ensures forall x :: x in r <==> x in s
    ensures forall i, j | 0 <= i < j < |r| :: r[i] != r[j]
  {
    if s == [] then []
    else
      var rest := Dedup(s[..|s| - 1]);
      assert forall x :: x in s <==> x in s[..|s| - 1] || x == s[|s| - 1] by {
        assert s == s[..|s| - 1] + [s[|s| - 1]];
      }
      if s[|s| - 1] in rest then rest else rest + [s[|s| - 1]]
  }

  /** sorted(set(names)) for str values: each distinct name once, in Python order. */
  function SortedSet(names: seq<string>): (r: seq<string>)
    ensures forall x :: x in r <==> x in names
    ensures forall i, j | 0 <= i < j < |r| :: r[i] != r[j]
    ensures SortedBy(r, StringOrder())
  {
    var d := Dedup(names);
    var r := SortBy(d, StringOrder());
    SortBySorted(d, StringOrder());
    assert forall x :: x in r <==> x in multiset(d);
    DistinctPermutation(d, r);
    r
  }

  /** A reordering of a sequence without repeats has no repeats. */
  lemma DistinctPermutation(a: seq<string>, b: seq<string>)
    requires multiset(a) == multiset(b)
    requires forall i, j | 0 <= i < j < |a| :: a[i] != a[j]
    ensures forall i, j | 0 <= i < j < |b| :: b[i] != b[j]
  {
    forall i, j | 0 <= i < j < |b| ensures b[i] != b[j] {
      if b[i] == b[j] {
        TwoOccurrences(b, i, j);
        DistinctCount(a, b[i]);
      }
    }
  }

  lemma TwoOccurrences(s: seq<string>, i: nat, j: nat)
    requires i < j < |s| && s[i] == s[j]
    ensures multiset(s)[s[i]] >= 2
  {
    assert s == s[..i] + [s[i]] + s[i + 1..j] + [s[j]] + s[j + 1..];
    assert multiset(s) == multiset(s[..i]) + multiset{s[i]} + multiset(s[i + 1..j])
      + multiset{s[j]} + multiset(s[j + 1..]);
  }

  lemma {:induction false} DistinctCount<T>(s: seq<T>, x: T)
    requires forall i, j | 0 <= i < j < |s| :: s[i] != s[j]
    ensures multiset(s)[x] <= 1
  {
    if s != [] {
      DistinctCount(s[1..], x);
      assert s == [s[0]] + s[1..];
      if s[0] == x {
        assert x !in s[1..];
      }
    }
  }

  /** The text before a result, with any error passed through. */
  function Prefixed(a: string, r: Result<string>): Result<string> {
    match r
    case Ok(t) => Ok(a + t)
    case Err(e) => Err(e)
  }

  /** Where the key of `%(key)` ends: the `)` that balances the opening `(`. */
  function KeyClose(s: string, i: nat, depth: nat): (r: Option<nat>)
    requires i <= |s| && depth >= 1
    ensures r.Some? ==> i <= r.value < |s| && s[r.value] == ')'
    decreases |s| - i
  {
    if i == |s| then None
    else if s[i] == ')' then (if depth == 1 then Some(i) else KeyClose(s, i + 1, depth - 1))
    else if s[i] == '(' then KeyClose(s, i + 1, depth + 1)
    else KeyClose(s, i + 1, depth)
  }

  /**
   * `fmt % mapping` for `%(key)s` conversions and `%%`: a missing key is a
   * KeyError, a trailing `%` or an unclosed key a ValueError.
   */
  function PercentFormat(fmt: string, m: map<string, string>): Result<string>
    decreases |fmt|
  {
    if fmt == [] then Ok([])
    else if fmt[0] != '%' then Prefixed([fmt[0]], PercentFormat(fmt[1..], m))
    else if |fmt| == 1 then Err(ValueError("incomplete format"))
    else if fmt[1] == '%' then Prefixed("%", PercentFormat(fmt[2..], m))
    else if fmt[1] != '(' then Err(ValueError("unsupported format character"))
    else match KeyClose(fmt, 2, 1)
      case None => Err(ValueError("incomplete format key"))
      case Some(j) =>
        var key := fmt[2..j];
        if key !in m then Err(KeyError(key))
        else if j + 1 == |fmt| then Err(ValueError("incomplete format"))
        else if fmt[j + 1] == 's' then Prefixed(m[key], PercentFormat(fmt[j + 2..], m))
        else Err(ValueError("unsupported format character"))
  }

  /** Text without a `%` is copied through. */
  lemma {:induction false} PercentFormatLiteral(a: string, b: string, m: map<string, string>)
    requires '%' !in a
    ensures PercentFormat(a + b, m) == Prefixed(a, PercentFormat(b, m))
  {
    if a != [] {
      assert (a + b)[1..] == a[1..] + b;
      PercentFormatLiteral(a[1..], b, m);
      assert a == [a[0]] + a[1..];
      PrefixedAssoc([a[0]], a[1..], PercentFormat(b, m));
    } else {
      assert a + b == b;
      match PercentFormat(b, m)
      case Ok(t) => assert a + t == t;
      case Err(_) =>
    }
  }

  lemma KeyCloseNoParens(s: string, i: nat, j: nat)
    requires i <= j < |s| && s[j] == ')'
    requires forall k | i <= k < j :: s[k] != '(' && s[k] != ')'
    ensures KeyClose(s, i, 1) == Some(j)
    decreases j - i
  {
    if i < j {
      KeyCloseNoParens(s, i + 1, j);
    }
  }

  /** `%(key)s` is replaced by the key's value. */
  lemma PercentFormatKey(key: string, b: string, m: map<string, string>)
    requires key in m && '(' !in key && ')' !in key
    ensures PercentFormat("%(" + key + ")s" + b, m) == Prefixed(m[key], PercentFormat(b, m))
  {
    var fmt := "%(" + key + ")s" + b;
    var j := 2 + |key|;
    assert fmt[2..j] == key;
    assert fmt[j] == ')' && fmt[j + 1] == 's';
    assert fmt[j + 2..] == b;
    assert forall k | 2 <= k < j :: fmt[k] == key[k - 2];
    KeyCloseNoParens(fmt, 2, j);
  }

  /** `%%` comes out as `%`. */
  lemma PercentFormatPercent(b: string, m: map<string, string>)
    ensures PercentFormat("%%" + b, m) == Prefixed("%", PercentFormat(b, m))
  {
    assert ("%%" + b)[2..] == b;
  }

  lemma PrefixedAssoc(a: string, c: string, r: Result<string>)
    ensures Prefixed(a, Prefixed(c, r)) == Prefixed(a + c, r)
  {
    match r
    case Ok(t) => assert a + (c + t) == (a + c) + t;
    case Err(_) =>
  }

  /** A one-character string occurs exactly where that character does. */
  lemma ContainsChar(s: string, c: char)
    ensures Contains(s, [c]) <==> c in s
  {
    forall j: nat | j + 1 <= |s| ensures OccursAt(s, [c], j) <==> s[j] == c {
      assert s[j..j + 1] == [s[j]];
    }
    if c in s {
      var j :| 0 <= j < |s| && s[j] == c;
      assert OccursAt(s, [c], j);
    }
  }
}
