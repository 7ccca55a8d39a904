// The per-format escaping functions of the writers module: html() chains
// three str.replace calls, rst() is a regular-expression substitution
// that puts a backslash before an underscore ending a word.  text(), mw()
// and moin() return their argument unchanged.
module Escapes {
  import opened Wrappers
  import opened Strings

  // ---- html ----

  /** html(text): `&`, then `<`, then `>` replaced by their entities. */
  function Html(text: string): (r: string) {
    Replace(Replace(Replace(text, "&", "&amp;"), "<", "&lt;"), ">", "&gt;")
  }

  /** What one character becomes in HTML. */
  function HtmlChar(c: char): (r: string) {
    if c == '&' then "&amp;" else if c == '<' then "&lt;" else if c == '>' then "&gt;" else [c]
  }

  /** The single-pass reference: every character escaped on its own. */
  function EscapeHtml(s: string): (r: string) {
    if s == [] then [] else HtmlChar(s[0]) + EscapeHtml(s[1..])
  }

  /** The three replacements, each as a per-character map. */
  function HtmlMaps(s: string): string {
    MapChar(MapChar(MapChar(s, '&', "&amp;"), '<', "&lt;"), '>', "&gt;")
  }

  lemma HtmlMapsAppend(a: string, b: string)
    ensures HtmlMaps(a + b) == HtmlMaps(a) + HtmlMaps(b)
  {
    var a1, b1 := MapChar(a, '&', "&amp;"), MapChar(b, '&', "&amp;");
    MapCharAppend(a, b, '&', "&amp;");
    var a2, b2 := MapChar(a1, '<', "&lt;"), MapChar(b1, '<', "&lt;");
    MapCharAppend(a1, b1, '<', "&lt;");
    MapCharAppend(a2, b2, '>', "&gt;");
  }

  lemma HtmlMapsChar(c: char)
    ensures HtmlMaps([c]) == HtmlChar(c)
  {
    var s1 := MapChar([c], '&', "&amp;");
    assert s1 == (if c == '&' then "&amp;" else [c]) by {
      assert [c][1..] == [];
    }
    if c == '&' {
      assert '<' !in "&amp;" && '>' !in "&amp;";
    } else {
      var s2 := MapChar([c], '<', "&lt;");
      assert s2 == (if c == '<' then "&lt;" else [c]) by {
        assert [c][1..] == [];
      }
      if c == '<' {
        assert '>' !in "&lt;";
      } else {
        assert MapChar([c], '>', "&gt;") == (if c == '>' then "&gt;" else [c]) by {
          assert [c][1..] == [];
        }
      }
    }
  }

  lemma {:induction false} HtmlMapsEscape(s: string)
    ensures HtmlMaps(s) == EscapeHtml(s)
    decreases |s|
  {
    if s != [] {
      assert s == [s[0]] + s[1..];
      HtmlMapsAppend([s[0]], s[1..]);
      HtmlMapsChar(s[0]);
      HtmlMapsEscape(s[1..]);
    }
  }

  /** The chained replacements escape each character on its own ("&" first, so no entity is escaped twice). */
  lemma HtmlIsEscape(s: string)
    ensures Html(s) == EscapeHtml(s)
  {
    var s1 := Replace(s, "&", "&amp;");
    ReplaceOneChar(s, '&', "&amp;");
    var s2 := Replace(s1, "<", "&lt;");
    ReplaceOneChar(s1, '<', "&lt;");
    ReplaceOneChar(s2, '>', "&gt;");
    HtmlMapsEscape(s);
  }

  lemma {:induction false} EscapeHtmlNoAngles(s: string)
    ensures '<' !in EscapeHtml(s) && '>' !in EscapeHtml(s)
    decreases |s|
  {
    if s != [] {
      EscapeHtmlNoAngles(s[1..]);
      assert '<' !in HtmlChar(s[0]) && '>' !in HtmlChar(s[0]);
    }
  }

  /** html() output never holds `<` or `>`. */
  lemma HtmlNoAngles(s: string)
    ensures '<' !in Html(s) && '>' !in Html(s)
  {
    HtmlIsEscape(s);
    EscapeHtmlNoAngles(s);
  }

  lemma {:induction false} EscapeHtmlPlain(s: string)
    requires '&' !in s && '<' !in s && '>' !in s
    ensures EscapeHtml(s) == s
    decreases |s|
  {
    if s != [] {
      var t := s[1..];
      assert s == [s[0]] + t;
      assert HtmlChar(s[0]) == [s[0]];
      EscapeHtmlPlain(t);
    }
  }

  /** html() is the identity on text without `&`, `<` and `>`. */
  lemma HtmlPlain(s: string)
    requires '&' !in s && '<' !in s && '>' !in s
    ensures Html(s) == s
  {
    HtmlIsEscape(s);
    EscapeHtmlPlain(s);
  }

  /** Decoding the three entities html() writes, left to right. */
  function Unhtml(s: string): (r: string)
    decreases |s|
  {
    if s == [] then []
    else if StartsWith(s, "&amp;") then "&" + Unhtml(s[5..])
    else if StartsWith(s, "&lt;") then "<" + Unhtml(s[4..])
    else if StartsWith(s, "&gt;") then ">" + Unhtml(s[4..])
    else [s[0]] + Unhtml(s[1..])
  }

  lemma UnhtmlChar(c: char, rest: string)
    ensures Unhtml(HtmlChar(c) + rest) == [c] + Unhtml(rest)
  {
    var t := HtmlChar(c) + rest;
    if c == '&' {
      assert t[..5] == "&amp;" && t[5..] == rest;
    } else if c == '<' {
      assert t[..4] == "&lt;" && t[4..] == rest;
      assert !StartsWith(t, "&amp;") by { assert t[1] == 'l'; }
    } else if c == '>' {
      assert t[..4] == "&gt;" && t[4..] == rest;
      assert !StartsWith(t, "&amp;") by { assert t[1] == 'g'; }
      assert !StartsWith(t, "&lt;") by { assert t[1] == 'g'; }
    } else {
      assert t[0] == c && t[1..] == rest;
    }
  }

  /** Nothing is lost: decoding the entities gives the text back. */
  lemma {:induction false} HtmlRoundTrip(s: string)
    ensures Unhtml(Html(s)) == s
    decreases |s|
  {
    HtmlIsEscape(s);
    if s != [] {
      UnhtmlChar(s[0], EscapeHtml(s[1..]));
      HtmlRoundTrip(s[1..]);
      HtmlIsEscape(s[1..]);
      assert s == [s[0]] + s[1..];
    }
  }

  // ---- rst ----

  /** rstReplaceRE, `_( |-|$)`, matches at `j`: an underscore before a blank, a dash, the end, or a final newline. */
  predicate RstMatchAt(s: string, j: nat)
    requires j < |s|
  {
    s[j] == '_'
    && (j + 1 == |s| || s[j + 1] == ' ' || s[j + 1] == '-' || (j + 2 == |s| && s[j + 1] == '\n'))
  }

  /** The leftmost match at or after `i`. */
  function NextRstMatch(s: string, i: nat): (r: Option<nat>)
    requires i <= |s|
    ensures r.Some? ==> i <= r.value < |s| && RstMatchAt(s, r.value)
    ensures r.Some? ==> forall k | i <= k < r.value :: !RstMatchAt(s, k)
    ensures r.None? ==> forall k | i <= k < |s| :: !RstMatchAt(s, k)
    decreases |s| - i
  {
    if i == |s| then None
    else if RstMatchAt(s, i) then Some(i)
    else NextRstMatch(s, i + 1)
  }

  /**
   * re.sub(r'\_\1', ...) from index `i`: the text up to the next match is
   * copied, the match becomes a backslash, the underscore and the group
   * (the blank or dash it consumed, or nothing), and the search resumes
   * after the match.
   */
  function RstFrom(s: string, i: nat): (r: string)
    requires i <= |s|
    decreases |s| - i
  {
    match NextRstMatch(s, i)
    case None => s[i..]
    case Some(j) =>
      var e := if j + 1 < |s| && (s[j + 1] == ' ' || s[j + 1] == '-') then j + 2 else j + 1;
      s[i..j] + "\\_" + s[j + 1..e] + RstFrom(s, e)
  }

  /** rst(text). */
  function Rst(text: string): string {
    RstFrom(text, 0)
  }

  /** The per-position reference: a backslash before each underscore the pattern matches, all else kept. */
  function EscapeRstFrom(s: string, i: nat): (r: string)
    requires i <= |s|
    decreases |s| - i
  {
    if i == |s| then []
    else (if RstMatchAt(s, i) then "\\_" else [s[i]]) + EscapeRstFrom(s, i + 1)
  }

  lemma {:induction false} EscapeRstCopies(s: string, i: nat, j: nat)
    requires i <= j <= |s|
    requires forall k | i <= k < j :: !RstMatchAt(s, k)
    ensures EscapeRstFrom(s, i) == s[i..j] + EscapeRstFrom(s, j)
    decreases j - i
  {
    if i < j {
      var rest := EscapeRstFrom(s, i + 1);
      assert !RstMatchAt(s, i);
      assert EscapeRstFrom(s, i) == [s[i]] + rest;
      EscapeRstCopies(s, i + 1, j);
      assert s[i..j] == [s[i]] + s[i + 1..j];
    } else {
      assert s[i..j] == [];
    }
  }

  /** At a match, the substitution and the reference agree on the match itself. */
  lemma EscapeRstMatch(s: string, j: nat)
    requires j < |s| && RstMatchAt(s, j)
    ensures var e := if j + 1 < |s| && (s[j + 1] == ' ' || s[j + 1] == '-') then j + 2 else j + 1;
      EscapeRstFrom(s, j) == "\\_" + s[j + 1..e] + EscapeRstFrom(s, e)
  {
    assert EscapeRstFrom(s, j) == "\\_" + EscapeRstFrom(s, j + 1);
    if j + 1 < |s| && (s[j + 1] == ' ' || s[j + 1] == '-') {
      assert !RstMatchAt(s, j + 1);
      assert EscapeRstFrom(s, j + 1) == [s[j + 1]] + EscapeRstFrom(s, j + 2);
      assert s[j + 1..j + 2] == [s[j + 1]];
    } else {
      assert s[j + 1..j + 1] == [];
    }
  }

  lemma RstFromStep(s: string, i: nat, j: nat, e: nat)
    requires i <= |s| && NextRstMatch(s, i) == Some(j)
    requires e == if j + 1 < |s| && (s[j + 1] == ' ' || s[j + 1] == '-') then j + 2 else j + 1
    ensures RstFrom(s, i) == s[i..j] + "\\_" + s[j + 1..e] + RstFrom(s, e)
  {
  }

  /** One match of the substitution, given that the rest already agrees with the reference. */
  lemma RstFromMatch(s: string, i: nat, j: nat, e: nat)
    requires i <= |s| && NextRstMatch(s, i) == Some(j)
    requires e == if j + 1 < |s| && (s[j + 1] == ' ' || s[j + 1] == '-') then j + 2 else j + 1
    requires RstFrom(s, e) == EscapeRstFrom(s, e)
    ensures RstFrom(s, i) == EscapeRstFrom(s, i)
  {
    var a, c, d := s[i..j], s[j + 1..e], RstFrom(s, e);
    RstFromStep(s, i, j, e);
    EscapeRstCopies(s, i, j);
    EscapeRstMatch(s, j);
    assert EscapeRstFrom(s, j) == "\\_" + c + d;
    assert EscapeRstFrom(s, i) == a + ("\\_" + c + d);
    ConcatAssoc(a, "\\_", c, d);
  }

  lemma ConcatAssoc(a: string, b: string, c: string, d: string)
    ensures a + b + c + d == a + (b + c + d)
  {
  }

  lemma {:induction false} RstFromEscape(s: string, i: nat)
    requires i <= |s|
    ensures RstFrom(s, i) == EscapeRstFrom(s, i)
    decreases |s| - i
  {
    var m := NextRstMatch(s, i);
    if m.None? {
      EscapeRstCopies(s, i, |s|);
      assert s[|s|..] == [];
      assert EscapeRstFrom(s, |s|) == [];
    } else {
      var j := m.value;
      var e := if j + 1 < |s| && (s[j + 1] == ' ' || s[j + 1] == '-') then j + 2 else j + 1;
      RstFromEscape(s, e);
      RstFromMatch(s, i, j, e);
    }
  }

  /** rst() puts a backslash before exactly the underscores `_( |-|$)` matches and leaves every other character as it was. */
  lemma RstIsEscape(s: string)
    ensures Rst(s) == EscapeRstFrom(s, 0)
  {
    RstFromEscape(s, 0);
  }

  /** Text without underscores passes through rst() unchanged. */
  lemma RstPlain(s: string)
    requires '_' !in s
    ensures Rst(s) == s
  {
    RstIsEscape(s);
    assert forall k | 0 <= k < |s| :: !RstMatchAt(s, k) by {
      forall k | 0 <= k < |s| ensures !RstMatchAt(s, k) {
        assert s[k] in s;
      }
    }
    EscapeRstCopies(s, 0, |s|);
    assert s[0..|s|] == s;
  }
}
