// config.py: the Supybot side of the configuration.  WriterMap reads and
// prints the writer_map setting, setup_config registers the Config
// attributes Supybot can hold, and SupybotConfigProxy.__getattr__ chooses
// between a channel's registry value and the Config default.
module SupybotConfig {
  import opened Wrappers
  import opened Strings
  import opened Dicts
  import opened WriterKinds

  // ---- WriterMap.set and WriterMap.__str__ ----

  /** A writer_map value: extension to the writers-module attribute, in insertion order. */
  type WriterDict = seq<(string, ModuleAttr)>

  const BadExtension := "Extension must start with '.' and have at least one more character."

  /** What `writer, ext = token.split(':')` raises when the split does not give two parts. */
  function UnpackError(parts: nat): Error {
    if parts < 2 then ValueError("not enough values to unpack (expected 2, got " + NatToString(parts) + ")")
    else ValueError("too many values to unpack (expected 2)")
  }

  predicate GoodExtension(ext: string) {
    |ext| >= 2 && ext[0] == '.'
  }

  /** One pass of WriterMap.set's loop: the (extension, writer) pair a token gives, or what it raises. */
  function ParseToken(token: string): Result<(string, ModuleAttr)> {
    var parts := Split(token, ":");
    if |parts| != 2 then Err(UnpackError(|parts|))
    else match Lookup(parts[0])
      case None => Err(ValueError("Writer name not found: '" + parts[0] + "'"))
      case Some(a) => if GoodExtension(parts[1]) then Ok((parts[1], a)) else Err(ValueError(BadExtension))
  }

  type Entry = (string, ModuleAttr)

  /** What each token gives, in order. */
  function Outcomes(tokens: seq<string>): (r: seq<Result<Entry>>)
    ensures |r| == |tokens| && forall j | 0 <= j < |tokens| :: r[j] == ParseToken(tokens[j])
    decreases |tokens|
  {
    if tokens == [] then [] else Outcomes(tokens[..|tokens| - 1]) + [ParseToken(tokens[|tokens| - 1])]
  }

  /**
   * WriterMap.set's loop over those outcomes: each entry is stored as
   * `writer_map[ext] = writer`, and the first exception ends the loop.
   */
  function Collect(outcomes: seq<Result<Entry>>): (r: Result<WriterDict>)
    ensures r.Ok? ==> UniqueKeys(r.value)
    decreases |outcomes|
  {
    if outcomes == [] then Ok([])
    else match Collect(outcomes[..|outcomes| - 1])
      case Err(e) => Err(e)
      case Ok(d) =>
        match outcomes[|outcomes| - 1]
        case Err(e) => Err(e)
        case Ok(entry) => Ok(Put(d, entry.0, entry.1))
  }

  /** The dict WriterMap.set builds from the tokens, or the first exception a token raises. */
  function Parsed(tokens: seq<string>): Result<WriterDict> {
    Collect(Outcomes(tokens))
  }

  /** WriterMap.set(s) as a value: the dict it stores, or what it raises. */
  function SetSpec(s: string): Result<WriterDict> {
    Parsed(SplitWhitespace(s))
  }

  /** The "Name:ext" strings __str__ collects, or AttributeError for a value without __name__. */
  function Pairs(d: WriterDict): Result<seq<string>>
    decreases |d|
  {
    if d == [] then Ok([])
    else match Pairs(d[..|d| - 1])
      case Err(e) => Err(e)
      case Ok(ps) =>
        match PyName(d[|d| - 1].1)
        case None => Err(AttributeError("__name__"))
        case Some(name) => Ok(ps + [name + ":" + d[|d| - 1].0])
  }

  /** WriterMap.__str__ as a value. */
  function Shown(d: WriterDict): Result<string> {
    match Pairs(d)
    case Err(e) => Err(e)
    case Ok(ps) => Ok(Join(" ", ps))
  }

  /** The registry value behind the writer_map setting. */
  class WriterMap {
    var value: WriterDict

    /** registry.Value's constructor stores the default through setValue. */
    constructor (default: WriterDict)
      ensures value == default
    {
      value := default;
    }

    method SetValue(v: WriterDict)
      modifies this
      ensures value == v
    {
      value := v;
    }

    /** WriterMap.set: the value is replaced only once every token has parsed. */
    method Set(s: string) returns (raised: Option<Error>)
      modifies this
      ensures raised.None? ==> SetSpec(s) == Ok(value)
      ensures raised.Some? ==> SetSpec(s) == Err(raised.value) && value == old(value)
    {
      var tokens := SplitWhitespace(s);
      ghost var outcomes := Outcomes(tokens);
      var writerMap: WriterDict := [];
      var i := 0;
      while i < |tokens|
        invariant 0 <= i <= |tokens|
        invariant Collect(outcomes[..i]) == Ok(writerMap)
        invariant value == old(value)
      {
        CollectStep(outcomes, i);
        assert outcomes[i] == ParseToken(tokens[i]);
        var parts := Split(tokens[i], ":");
        if |parts| != 2 {
          assert outcomes[i] == Err(UnpackError(|parts|));
          CollectErrorStays(outcomes, i + 1);
          return Some(UnpackError(|parts|));
        }
        var writer, ext := parts[0], parts[1];
        var attr := Lookup(writer);
        if attr.None? {
          assert outcomes[i] == Err(ValueError("Writer name not found: '" + writer + "'"));
          CollectErrorStays(outcomes, i + 1);
          return Some(ValueError("Writer name not found: '" + writer + "'"));
        }
        if |ext| < 2 || ext[0] != '.' {
          assert outcomes[i] == Err(ValueError(BadExtension));
          CollectErrorStays(outcomes, i + 1);
          return Some(ValueError(BadExtension));
        }
        assert outcomes[i] == Ok((ext, attr.value));
        writerMap := Put(writerMap, ext, attr.value);
        i := i + 1;
      }
      assert outcomes[..i] == outcomes;
      SetValue(writerMap);
      raised := None;
    }

    /** WriterMap.__str__. */
    method ToString() returns (r: Result<string>)
      ensures r == Shown(value)
    {
      var writerList: seq<string> := [];
      var i := 0;
      while i < |value|
        invariant 0 <= i <= |value|
        invariant Pairs(value[..i]) == Ok(writerList)
      {
        assert value[..i + 1][..i] == value[..i];
        var name := PyName(value[i].1);
        if name.None? {
          PairsErrorStays(value, i + 1);
          return Err(AttributeError("__name__"));
        }
        writerList := writerList + [name.value + ":" + value[i].0];
        i := i + 1;
      }
      assert value[..i] == value;
      r := Ok(Join(" ", writerList));
    }
  }

  /** One more pass of the loop. */
  lemma CollectStep(outcomes: seq<Result<Entry>>, i: nat)
    requires i < |outcomes| && Collect(outcomes[..i]).Ok?
    ensures Collect(outcomes[..i + 1]) == match outcomes[i]
      case Err(e) => Err(e)
      case Ok(entry) => Ok(Put(Collect(outcomes[..i]).value, entry.0, entry.1))
  {
    assert outcomes[..i + 1][..i] == outcomes[..i];
  }

  /** Once a token has raised, the later tokens are never read. */
  lemma {:induction false} CollectErrorStays(outcomes: seq<Result<Entry>>, n: nat)
    requires n <= |outcomes| && Collect(outcomes[..n]).Err?
    ensures Collect(outcomes) == Collect(outcomes[..n])
    decreases |outcomes| - n
  {
    if n < |outcomes| {
      assert outcomes[..n + 1][..n] == outcomes[..n];
      CollectErrorStays(outcomes, n + 1);
    } else {
      assert outcomes[..n] == outcomes;
    }
  }

  lemma {:induction false} PairsErrorStays(d: WriterDict, n: nat)
    requires n <= |d| && Pairs(d[..n]).Err?
    ensures Pairs(d) == Pairs(d[..n])
    decreases |d| - n
  {
    if n < |d| {
      assert d[..n + 1][..n] == d[..n];
      PairsErrorStays(d, n + 1);
    } else {
      assert d[..n] == d;
    }
  }

  lemma {:induction false} CollectOk(outcomes: seq<Result<Entry>>)
    ensures Collect(outcomes).Ok? <==> forall j | 0 <= j < |outcomes| :: outcomes[j].Ok?
    decreases |outcomes|
  {
    if outcomes != [] {
      var init := outcomes[..|outcomes| - 1];
      CollectOk(init);
      assert forall j | 0 <= j < |init| :: init[j] == outcomes[j];
    }
  }

  lemma CollectFirstError(outcomes: seq<Result<Entry>>, i: nat)
    requires i < |outcomes| && outcomes[i].Err?
    requires forall j | 0 <= j < i :: outcomes[j].Ok?
    ensures Collect(outcomes) == Err(outcomes[i].error)
  {
    var init := outcomes[..i];
    CollectOk(init);
    var pre := outcomes[..i + 1];
    assert pre[..i] == init;
    CollectErrorStays(outcomes, i + 1);
  }

  lemma {:induction false} CollectKeys(outcomes: seq<Result<Entry>>, ext: string)
    requires Collect(outcomes).Ok?
    ensures HasKey(Collect(outcomes).value, ext) <==>
      exists j | 0 <= j < |outcomes| :: outcomes[j].Ok? && outcomes[j].value.0 == ext
    decreases |outcomes|
  {
    if outcomes != [] {
      var init := outcomes[..|outcomes| - 1];
      var d := Collect(init).value;
      var (k, v) := outcomes[|outcomes| - 1].value;
      var r := Put(d, k, v);
      assert Collect(outcomes).value == r;
      CollectKeys(init, ext);
      assert forall j | 0 <= j < |init| :: init[j] == outcomes[j];
      PutOthers(d, k, v);
      if ext != k {
        if HasKey(d, ext) {
          var i :| 0 <= i < |d| && d[i].0 == ext;
          assert d[i] in r;
        }
        if HasKey(r, ext) {
          var i :| 0 <= i < |r| && r[i].0 == ext;
          assert r[i] in d;
        }
      }
    }
  }

  lemma {:induction false} CollectLastWins(outcomes: seq<Result<Entry>>, i: nat)
    requires Collect(outcomes).Ok? && i < |outcomes| && outcomes[i].Ok?
    requires forall j | i < j < |outcomes| :: outcomes[j].Ok? && outcomes[j].value.0 != outcomes[i].value.0
    ensures var e := outcomes[i].value;
      HasKey(Collect(outcomes).value, e.0) && Get(Collect(outcomes).value, e.0) == e.1
    decreases |outcomes|
  {
    var e := outcomes[i].value;
    var init := outcomes[..|outcomes| - 1];
    var d := Collect(init).value;
    var (k, v) := outcomes[|outcomes| - 1].value;
    var r := Put(d, k, v);
    assert Collect(outcomes).value == r;
    if i < |outcomes| - 1 {
      assert forall j | 0 <= j < |init| :: init[j] == outcomes[j];
      CollectLastWins(init, i);
      var n := IndexOf(d, e.0);
      assert d[n] == e;
      PutOthers(d, k, v);
      assert e in r;
    }
  }

  /** Storing the entries of a dict with distinct keys, in order, gives that dict back. */
  lemma {:induction false} CollectEntries(d: WriterDict, outcomes: seq<Result<Entry>>)
    requires UniqueKeys(d) && |outcomes| == |d|
    requires forall k | 0 <= k < |d| :: outcomes[k] == Ok(d[k])
    ensures Collect(outcomes) == Ok(d)
    decreases |d|
  {
    if d != [] {
      var init := d[..|d| - 1];
      assert forall k | 0 <= k < |init| :: init[k] == d[k];
      CollectEntries(init, outcomes[..|d| - 1]);
      var (ext, a) := d[|d| - 1];
      assert !HasKey(init, ext);
      assert init + [(ext, a)] == d;
    }
  }

  /** WriterMap.set succeeds exactly when every token parses. */
  lemma ParsedOk(tokens: seq<string>)
    ensures Parsed(tokens).Ok? <==> forall j | 0 <= j < |tokens| :: ParseToken(tokens[j]).Ok?
  {
    CollectOk(Outcomes(tokens));
  }

  /** The exception WriterMap.set raises is the first failing token's. */
  lemma ParsedFirstError(tokens: seq<string>, i: nat)
    requires i < |tokens| && ParseToken(tokens[i]).Err?
    requires forall j | 0 <= j < i :: ParseToken(tokens[j]).Ok?
    ensures Parsed(tokens) == Err(ParseToken(tokens[i]).error)
  {
    CollectFirstError(Outcomes(tokens), i);
  }

  /** The extensions the dict holds are exactly those of the tokens. */
  lemma ParsedKeys(tokens: seq<string>, ext: string)
    requires Parsed(tokens).Ok?
    ensures HasKey(Parsed(tokens).value, ext) <==>
      exists j | 0 <= j < |tokens| :: ParseToken(tokens[j]).Ok? && ParseToken(tokens[j]).value.0 == ext
  {
    var outcomes := Outcomes(tokens);
    CollectKeys(outcomes, ext);
    assert forall j | 0 <= j < |tokens| :: outcomes[j] == ParseToken(tokens[j]);
  }

  /** A later duplicate extension overwrites an earlier one: the last token with an extension decides its writer. */
  lemma ParsedLastWins(tokens: seq<string>, i: nat)
    requires Parsed(tokens).Ok? && i < |tokens| && ParseToken(tokens[i]).Ok?
    requires forall j | i < j < |tokens| ::
      ParseToken(tokens[j]).Ok? && ParseToken(tokens[j]).value.0 != ParseToken(tokens[i]).value.0
    ensures var e := ParseToken(tokens[i]).value;
      HasKey(Parsed(tokens).value, e.0) && Get(Parsed(tokens).value, e.0) == e.1
  {
    CollectLastWins(Outcomes(tokens), i);
  }

  /** The error AttributeError of __str__ comes from a value without __name__. */
  lemma {:induction false} PairsError(d: WriterDict)
    ensures Pairs(d).Err? <==> exists i | 0 <= i < |d| :: PyName(d[i].1).None?
    ensures Pairs(d).Err? ==> Pairs(d) == Err(AttributeError("__name__"))
    decreases |d|
  {
    if d != [] {
      var init := d[..|d| - 1];
      PairsError(init);
      assert forall i | 0 <= i < |init| :: init[i] == d[i];
    }
  }

  // ---- The error cases of one token ----

  /** A token without ':' cannot be unpacked into a name and an extension. */
  lemma TokenNoColon(token: string)
    requires ':' !in token
    ensures ParseToken(token) == Err(UnpackError(1))
  {
    SplitWithoutChar(token, ':');
  }

  /** Nor can a token with two colons or more. */
  lemma TokenTwoColons(a: string, b: string, c: string)
    requires ':' !in a && ':' !in b
    ensures ParseToken(a + ":" + b + ":" + c) == Err(ValueError("too many values to unpack (expected 2)"))
  {
    assert a + ":" + b + ":" + c == a + [':'] + (b + [':'] + c);
    SplitAtChar(a, ':', b + [':'] + c);
    SplitAtChar(b, ':', c);
  }

  /**
   * A token with one colon: an unknown writer name raises, then an
   * extension not starting with '.' or shorter than two characters raises;
   * otherwise the token gives its extension and the writer attribute.
   */
  lemma TokenFields(name: string, ext: string)
    requires ':' !in name && ':' !in ext
    ensures ParseToken(name + ":" + ext).Ok? <==> Lookup(name).Some? && GoodExtension(ext)
    ensures Lookup(name).None? ==> ParseToken(name + ":" + ext) == Err(ValueError("Writer name not found: '" + name + "'"))
    ensures Lookup(name).Some? && !GoodExtension(ext) ==> ParseToken(name + ":" + ext) == Err(ValueError(BadExtension))
    ensures ParseToken(name + ":" + ext).Ok? ==> ParseToken(name + ":" + ext).value == (ext, Lookup(name).value)
  {
    SplitAtChar(name, ':', ext);
    SplitWithoutChar(ext, ':');
    assert name + ":" + ext == name + [':'] + ext;
  }

  // ---- __str__ read back by set ----

  /** A non-empty string without whitespace: one piece of str.split(). */
  predicate Word(w: string) {
    w != [] && forall c | c in w :: !IsSpace(c)
  }

  /** A name made of identifier characters. */
  predicate Plain(n: string) {
    n != [] && forall c | c in n :: IsWordChar(c)
  }

  /** What every entry of a dict WriterMap.set built satisfies. */
  predicate LoadedEntry(e: (string, ModuleAttr)) {
    GoodExtension(e.0) && Word(e.0) && ':' !in e.0
    && (PyName(e.1).Some? ==> Plain(PyName(e.1).value) && Lookup(PyName(e.1).value) == Some(e.1))
  }

  predicate Loaded(d: WriterDict) {
    UniqueKeys(d) && forall i | 0 <= i < |d| :: LoadedEntry(d[i])
  }

  lemma PlainClassName(k: WriterKind)
    ensures Plain(ClassName(k))
  {
  }

  lemma PlainHelpers(n: string)
    requires n in NamedHelpers
    ensures Plain(n)
  {
  }

  /** The __name__ of anything the writers module holds is a plain name that looks the same thing up. */
  lemma LookupPlain(name: string)
    requires Lookup(name).Some? && PyName(Lookup(name).value).Some?
    ensures Plain(PyName(Lookup(name).value).value)
    ensures Lookup(PyName(Lookup(name).value).value) == Lookup(name)
  {
    LookupPyName(name);
    match Lookup(name).value
    case WriterClass(k) => PlainClassName(k);
    case NamedAttr(n) =>
      assert KindNamed(name, AllKinds).None? && name != "HTMLlog" && name != "HTML";
      PlainHelpers(n);
    case UnnamedAttr(_) =>
  }

  /** Every piece of s.split(c) is made of characters of s other than c. */
  lemma {:induction false} SplitPieces(s: string, c: char, k: nat, ch: char)
    requires k < |Split(s, [c])| && ch in Split(s, [c])[k]
    ensures ch in s && ch != c
    decreases |s|
  {
    match FindFrom(s, [c], 0)
    case None =>
      var j :| 0 <= j < |s| && s[j] == ch;
      assert s[j..j + 1] == [ch];
      assert !OccursAt(s, [c], j);
    case Some(i) =>
      if k == 0 {
        var j :| 0 <= j < i && s[..i][j] == ch;
        assert s[j..j + 1] == [ch];
        assert !OccursAt(s, [c], j);
      } else {
        SplitPieces(s[i + 1..], c, k - 1, ch);
      }
  }

  /** A token of str.split() that parses gives an entry of the kind set stores. */
  lemma TokenLoaded(token: string)
    requires forall c | c in token :: !IsSpace(c)
    requires ParseToken(token).Ok?
    ensures LoadedEntry(ParseToken(token).value)
  {
    var parts := Split(token, ":");
    var ext := parts[1];
    forall ch | ch in ext ensures ch in token && ch != ':' {
      SplitPieces(token, ':', 1, ch);
    }
    var a := Lookup(parts[0]).value;
    if PyName(a).Some? {
      LookupPlain(parts[0]);
    }
  }

  lemma {:induction false} CollectLoaded(outcomes: seq<Result<Entry>>)
    requires forall j | 0 <= j < |outcomes| :: outcomes[j].Ok? ==> LoadedEntry(outcomes[j].value)
    ensures Collect(outcomes).Ok? ==> Loaded(Collect(outcomes).value)
    decreases |outcomes|
  {
    if outcomes != [] && Collect(outcomes).Ok? {
      var init := outcomes[..|outcomes| - 1];
      assert forall j | 0 <= j < |init| :: init[j] == outcomes[j];
      CollectLoaded(init);
      var d := Collect(init).value;
      var e := outcomes[|outcomes| - 1].value;
      var r := Put(d, e.0, e.1);
      assert Collect(outcomes).value == r;
      PutOthers(d, e.0, e.1);
      forall i | 0 <= i < |r| ensures LoadedEntry(r[i]) {
        if r[i].0 == e.0 {
          assert r[i] == e;
        } else {
          assert r[i] in d;
        }
      }
    }
  }

  /** What WriterMap.set builds from the pieces of str.split() satisfies Loaded. */
  lemma ParsedLoaded(tokens: seq<string>)
    requires forall k | 0 <= k < |tokens| :: forall c | c in tokens[k] :: !IsSpace(c)
    ensures Parsed(tokens).Ok? ==> Loaded(Parsed(tokens).value)
  {
    var outcomes := Outcomes(tokens);
    forall j | 0 <= j < |outcomes| && outcomes[j].Ok? ensures LoadedEntry(outcomes[j].value) {
      TokenLoaded(tokens[j]);
    }
    CollectLoaded(outcomes);
  }

  /** __str__ prints one "Name:ext" string per entry, in order. */
  lemma {:induction false} PairsShape(d: WriterDict)
    requires Pairs(d).Ok?
    ensures |Pairs(d).value| == |d|
    ensures forall k | 0 <= k < |d| ::
      (PyName(d[k].1).Some? && Pairs(d).value[k] == PyName(d[k].1).value + ":" + d[k].0)
    decreases |d|
  {
    if d != [] {
      var init := d[..|d| - 1];
      assert forall i | 0 <= i < |init| :: init[i] == d[i];
      PairsShape(init);
    }
  }

  /** Each "Name:ext" string __str__ prints is one word. */
  lemma PairsWords(d: WriterDict)
    requires Loaded(d) && Pairs(d).Ok?
    ensures |Pairs(d).value| == |d|
    ensures forall k | 0 <= k < |d| ::
      (PyName(d[k].1).Some? && Pairs(d).value[k] == PyName(d[k].1).value + ":" + d[k].0 && Word(Pairs(d).value[k]))
  {
    PairsShape(d);
    forall k | 0 <= k < |d| ensures Word(Pairs(d).value[k]) {
      assert LoadedEntry(d[k]);
      PairWord(PyName(d[k].1).value, d[k].0);
    }
  }

  lemma PairWord(name: string, ext: string)
    requires Plain(name) && Word(ext)
    ensures Word(name + ":" + ext)
  {
    forall c | c in name + ":" + ext ensures !IsSpace(c) {
      if c in name {
        assert IsWordChar(c);
      }
    }
  }

  /** set reads each printed pair back into the entry it came from. */
  lemma ParsedPairs(d: WriterDict)
    requires Loaded(d) && Pairs(d).Ok?
    ensures Parsed(Pairs(d).value) == Ok(d)
  {
    var ps := Pairs(d).value;
    PairsWords(d);
    var outcomes := Outcomes(ps);
    forall k | 0 <= k < |d| ensures outcomes[k] == Ok(d[k]) {
      assert LoadedEntry(d[k]);
      var name := PyName(d[k].1).value;
      assert ':' !in name by {
        assert !IsWordChar(':');
      }
      TokenFields(name, d[k].0);
    }
    CollectEntries(d, outcomes);
  }

  /** Splitting w + t on whitespace, for a word w and a t that is empty or starts with whitespace. */
  lemma SplitWhitespaceWord(w: string, t: string)
    requires Word(w) && (t == [] || IsSpace(t[0]))
    ensures SplitWhitespace(w + t) == [w] + SplitWhitespace(t)
  {
    var s := w + t;
    assert s[0] == w[0] && w[0] in w;
    SkipWhileIs(s, 0, IsSpace, 0);
    forall k | 0 <= k < |w| ensures NotSpace(s[k]) {
      assert s[k] == w[k] && w[k] in w;
    }
    SkipWhileIs(s, 0, NotSpace, |w|);
    assert s[..|w|] == w && s[|w|..] == t;
  }

  /** SkipWhile on [x] + t from i + 1 is SkipWhile on t from i, shifted by one. */
  lemma SkipWhileShift(x: char, t: string, i: nat, p: char -> bool)
    requires i <= |t|
    ensures SkipWhile([x] + t, i + 1, p) == 1 + SkipWhile(t, i, p)
  {
    var s := [x] + t;
    var b := SkipWhile(t, i, p);
    SkipWhileIs(s, i + 1, p, 1 + b);
  }

  /** A leading blank before a word is dropped by str.split(). */
  lemma SplitWhitespaceBlank(t: string)
    requires t == [] || !IsSpace(t[0])
    ensures SplitWhitespace(" " + t) == SplitWhitespace(t)
  {
    var s := " " + t;
    assert SkipWhile(s, 0, IsSpace) == SkipWhile(s, 1, IsSpace);
    if t != [] {
      assert SkipWhile(s, 1, IsSpace) == 1;
      SkipWhileShift(' ', t, 0, NotSpace);
      var j := SkipWhile(t, 0, NotSpace);
      assert s[1..1 + j] == t[0..j] && s[1 + j..] == t[j..];
    }
  }

  /** A join of non-empty parts starts with the first part's first character. */
  lemma JoinFront(parts: seq<string>)
    requires |parts| >= 1 && parts[0] != []
    ensures Join(" ", parts) != [] && Join(" ", parts)[0] == parts[0][0]
  {
    if |parts| > 1 {
      assert Join(" ", parts) == parts[0] + (" " + Join(" ", parts[1..]));
    }
  }

  /** Splitting a space-joined list of words gives the words back. */
  lemma {:induction false} SplitWhitespaceJoin(parts: seq<string>)
    requires forall k | 0 <= k < |parts| :: Word(parts[k])
    ensures SplitWhitespace(Join(" ", parts)) == parts
    decreases |parts|
  {
    if |parts| == 1 {
      SplitWhitespaceWord(parts[0], "");
      assert parts[0] + "" == parts[0];
    } else if |parts| > 1 {
      var tail := parts[1..];
      var rest := Join(" ", tail);
      assert forall k | 0 <= k < |tail| :: tail[k] == parts[k + 1];
      SplitWhitespaceJoin(tail);
      assert Word(tail[0]);
      JoinFront(tail);
      assert rest[0] in tail[0];
      SplitWhitespaceWord(parts[0], " " + rest);
      SplitWhitespaceBlank(rest);
      assert Join(" ", parts) == parts[0] + (" " + rest);
      assert [parts[0]] + tail == parts;
    }
  }

  /**
   * WriterMap.set reads back what __str__ prints: when every stored value
   * has a __name__ (so that __str__ does not raise), setting the printed
   * string gives the same mapping, in the same order.
   */
  lemma SetShownRoundTrip(s: string)
    requires SetSpec(s).Ok? && Shown(SetSpec(s).value).Ok?
    ensures SetSpec(Shown(SetSpec(s).value).value) == SetSpec(s)
  {
    var d := SetSpec(s).value;
    ParsedLoaded(SplitWhitespace(s));
    PairsWords(d);
    SplitWhitespaceJoin(Pairs(d).value);
    ParsedPairs(d);
  }

  // ---- SupybotConfigProxy.__getattr__ ----

  /** A Config attribute's value, by the Python type the module tests for. */
  datatype PyValue =
    | PyStr(text: string)
    | PyBool(flag: bool)
    | PyList(items: seq<string>)
    | PyWriters(writers: WriterDict)
    /** Anything else: a number, a compiled pattern, a function. */
    | PyObject(repr: string)

  /** setup_config stores a str default with its newlines written as backslash-n. */
  function Escaped(s: string): string {
    Replace(s, "\n", "\\n")
  }

  /** __getattr__ turns each backslash-n of a str registry value back into a newline. */
  function Unescaped(s: string): string {
    Replace(s, "\\n", "\n")
  }

  /**
   * SupybotConfigProxy.__getattr__ for a data attribute: `registry` is what
   * the Supybot registry holds for the meeting's channel, read only for a
   * name setup_config registered; `default` is the Config attribute.
   */
  function ProxyValue(attrname: string, settable: seq<string>, registry: PyValue, default: PyValue): (r: PyValue)
    ensures attrname !in settable ==> r == default
    ensures attrname in settable && !registry.PyStr? ==> r == registry
    ensures attrname in settable && registry == PyStr(".") ==> r == default
    ensures attrname in settable && registry.PyStr? && registry.text != "." ==> r == PyStr(Unescaped(registry.text))
  {
    if attrname in settable && !registry.PyStr? then registry
    else if attrname in settable && registry.text != "." then PyStr(Unescaped(registry.text))
    else default
  }

  /** No backslash is followed by the letter n. */
  predicate NoEscapes(s: string)
    decreases |s|
  {
    |s| < 2 || (!(s[0] == '\\' && s[1] == 'n') && NoEscapes(s[1..]))
  }

  lemma {:induction false} MapCharLonger(s: string, c: char, repl: string)
    requires |repl| >= 1
    ensures |MapChar(s, c, repl)| >= |s|
    ensures |repl| >= 2 && c in s ==> |MapChar(s, c, repl)| > |s|
    decreases |s|
  {
    if s != [] {
      MapCharLonger(s[1..], c, repl);
      if s[0] != c && c in s {
        assert c in s[1..];
      }
    }
  }

  /** Unescaping one of the escaped pieces. */
  lemma UnescapedFront(x: string, rest: string)
    requires x == "\\n" || (|x| == 1 && x[0] != '\n')
    requires x == "\\" ==> rest == [] || rest[0] != 'n'
    ensures Unescaped(x + rest) == (if x == "\\n" then "\n" else x) + Unescaped(rest)
  {
    var s := x + rest;
    if x == "\\n" {
      assert s[..2] == "\\n" && s[2..] == rest;
    } else if |s| >= 2 {
      assert s[..2] != "\\n" by {
        if x == "\\" { assert s[1] == rest[0]; } else { assert s[0] == x[0]; }
      }
      assert s[1..] == rest && [s[0]] == x;
    }
  }

  /** A string without a backslash-n reads back unchanged through escape and unescape. */
  lemma {:induction false} UnescapeEscaped(s: string)
    requires NoEscapes(s)
    ensures Unescaped(Escaped(s)) == s
    decreases |s|
  {
    ReplaceOneChar(s, '\n', "\\n");
    assert Escaped(s) == MapChar(s, '\n', "\\n");
    if s != [] {
      var rest := MapChar(s[1..], '\n', "\\n");
      var x := if s[0] == '\n' then "\\n" else [s[0]];
      assert MapChar(s, '\n', "\\n") == x + rest;
      assert NoEscapes(s[1..]) && Escaped(s[1..]) == rest by {
        ReplaceOneChar(s[1..], '\n', "\\n");
      }
      UnescapeEscaped(s[1..]);
      if x == "\\" && rest != [] {
        assert rest[0] == (if s[1] == '\n' then '\\' else s[1]);
      }
      UnescapedFront(x, rest);
      assert s == [s[0]] + s[1..];
    }
  }

  /** A string with a backslash-n does not survive: it comes back as a newline. */
  lemma UnescapeEscapedLossy()
    ensures Escaped("\\n") == "\\n" && Unescaped(Escaped("\\n")) == "\n"
  {
    var s := "\\n";
    assert s[0] == '\\' && s[1] == 'n';
    ReplaceOneChar(s, '\n', "\\n");
    assert '\n' !in s;
    assert s[..2] == s && s[2..] == [];
  }

  /** Only "." escapes to ".", the marker that sends a lookup back to the default. */
  lemma EscapedDot(s: string)
    ensures Escaped(s) == "." <==> s == "."
  {
    ReplaceOneChar(s, '\n', "\\n");
    MapCharLonger(s, '\n', "\\n");
    if Escaped(s) == "." {
      assert s != [];
      assert |s| == 1;
      assert s[0] in s;
      assert s[1..] == [];
    }
  }

  // ---- setup_config ----

  /** The registry value class setup_config picks for an attribute. */
  datatype RegistryType = StringType | BooleanType | ListType | WriterMapType | RegexType

  /** conf.registerChannelValue(MeetBot, name, kind(default, '')). */
  datatype Registration = Registration(name: string, kind: RegistryType, default: PyValue)

  /** One pass of setup_config's loop: the registration an attribute gets, None where it is skipped. */
  function Classify(name: string, attr: PyValue): Result<Option<Registration>> {
    if name == [] then Err(IndexError)
    else if name[0] == '_' then Ok(None)
    else match attr
      case PyStr(text) => Ok(Some(Registration(name, StringType, PyStr(Escaped(text)))))
      case PyBool(_) => Ok(Some(Registration(name, BooleanType, attr)))
      case PyList(_) => Ok(Some(Registration(name, ListType, attr)))
      case _ =>
        if name == "writer_map" then Ok(Some(Registration(name, WriterMapType, attr)))
        else if EndsWith(name, "_RE") then Ok(Some(Registration(name, RegexType, attr)))
        else Ok(None)
  }

  /**
   * setup_config over the attributes of dir(OriginalConfig), in order: the
   * registrations made, and the exception that stopped the loop if any.
   */
  function Registrations(attrs: seq<(string, PyValue)>): (r: (seq<Registration>, Option<Error>))
    decreases |attrs|
  {
    if attrs == [] then ([], None)
    else
      var prev := Registrations(attrs[..|attrs| - 1]);
      if prev.1.Some? then prev
      else match Classify(attrs[|attrs| - 1].0, attrs[|attrs| - 1].1)
        case Err(e) => (prev.0, Some(e))
        case Ok(None) => prev
        case Ok(Some(reg)) => (prev.0 + [reg], None)
  }

  /** The names, in order: what settable_attributes holds. */
  function Names(regs: seq<Registration>): (r: seq<string>)
    ensures |r| == |regs| && forall i | 0 <= i < |regs| :: r[i] == regs[i].name
    decreases |regs|
  {
    if regs == [] then [] else Names(regs[..|regs| - 1]) + [regs[|regs| - 1].name]
  }

  /**
   * An attribute is skipped exactly when its name starts with '_' or its
   * value is none of str, bool and list and its name is neither writer_map
   * nor ends with _RE.
   */
  lemma ClassifySkipped(name: string, attr: PyValue)
    requires name != []
    ensures Classify(name, attr) == Ok(None) <==>
      name[0] == '_'
      || !(attr.PyStr? || attr.PyBool? || attr.PyList? || name == "writer_map" || EndsWith(name, "_RE"))
  {
  }

  /** The type tests in their order: str, then bool, then list, then the writer_map name, then _RE. */
  lemma ClassifyKind(name: string, attr: PyValue)
    requires Classify(name, attr).Ok? && Classify(name, attr).value.Some?
    ensures var reg := Classify(name, attr).value.value;
      reg.name == name && name[0] != '_'
      && (reg.kind == StringType <==> attr.PyStr?)
      && (reg.kind == BooleanType <==> attr.PyBool?)
      && (reg.kind == ListType <==> attr.PyList?)
      && (reg.kind == WriterMapType <==> !attr.PyStr? && !attr.PyBool? && !attr.PyList? && name == "writer_map")
      && (reg.kind == RegexType <==>
            !attr.PyStr? && !attr.PyBool? && !attr.PyList? && name != "writer_map" && EndsWith(name, "_RE"))
      && reg.default == if attr.PyStr? then PyStr(Escaped(attr.text)) else attr
  {
  }

  /** Only an empty attribute name (attrname[0]) stops the loop. */
  lemma {:induction false} RegistrationsError(attrs: seq<(string, PyValue)>)
    ensures Registrations(attrs).1.Some? <==> exists j | 0 <= j < |attrs| :: attrs[j].0 == []
    ensures Registrations(attrs).1.Some? ==> Registrations(attrs).1 == Some(IndexError)
    decreases |attrs|
  {
    if attrs != [] {
      var init := attrs[..|attrs| - 1];
      RegistrationsError(init);
      assert forall j | 0 <= j < |init| :: init[j] == attrs[j];
    }
  }

  /** Every registered name is an attribute's name that does not start with '_'. */
  lemma {:induction false} RegisteredNames(attrs: seq<(string, PyValue)>, k: nat)
    requires k < |Registrations(attrs).0|
    ensures var n := Registrations(attrs).0[k].name;
      n != [] && n[0] != '_' && exists j | 0 <= j < |attrs| :: attrs[j].0 == n
    decreases |attrs|
  {
    var init := attrs[..|attrs| - 1];
    var prev := Registrations(init);
    assert forall j | 0 <= j < |init| :: init[j] == attrs[j];
    if k < |prev.0| {
      RegisteredNames(init, k);
    } else {
      assert Registrations(attrs).0[k].name == attrs[|attrs| - 1].0;
    }
  }

  /** A name starting with '_' never reads from the registry: the proxy gives the Config default. */
  lemma UnderscoreReadsDefault(attrs: seq<(string, PyValue)>, name: string, registry: PyValue, default: PyValue)
    requires name != [] && name[0] == '_'
    ensures ProxyValue(name, Names(Registrations(attrs).0), registry, default) == default
  {
    var regs := Registrations(attrs).0;
    if name in Names(regs) {
      var k :| 0 <= k < |regs| && Names(regs)[k] == name;
      RegisteredNames(attrs, k);
    }
  }

  /**
   * An untouched registry value reads back as the Config default: the
   * default setup_config stored for a str attribute without a backslash-n
   * comes back through the proxy as the attribute itself.
   */
  lemma StringDefaultReadsBack(name: string, settable: seq<string>, text: string)
    requires NoEscapes(text)
    ensures ProxyValue(name, settable, PyStr(Escaped(text)), PyStr(text)) == PyStr(text)
  {
    EscapedDot(text);
    if Escaped(text) != "." {
      UnescapeEscaped(text);
    }
  }

  /** The plugin's registry group and the module's settable_attributes list. */
  class ConfigRegistry {
    var registered: seq<Registration>
    var settable: seq<string>

    constructor ()
      ensures registered == [] && settable == []
    {
      registered := [];
      settable := [];
    }

    /** conf.registerChannelValue and settable_attributes.append. */
    method Register(reg: Registration)
      modifies this
      ensures registered == old(registered) + [reg] && settable == old(settable) + [reg.name]
    {
      registered := registered + [reg];
      settable := settable + [reg.name];
    }

    /** setup_config(OriginalConfig), given the (name, value) pairs of dir(OriginalConfig). */
    method SetupConfig(attrs: seq<(string, PyValue)>) returns (raised: Option<Error>)
      modifies this
      ensures registered == old(registered) + Registrations(attrs).0
      ensures settable == old(settable) + Names(Registrations(attrs).0)
      ensures raised == Registrations(attrs).1
    {
      ghost var regs0, names0 := registered, settable;
      ghost var regs: seq<Registration> := [];
      var i := 0;
      while i < |attrs|
        invariant 0 <= i <= |attrs| && Registrations(attrs[..i]) == (regs, None)
        invariant registered == regs0 + regs && settable == names0 + Names(regs)
      {
        RegistrationsStep(attrs, i);
        var (name, attr) := attrs[i];
        if name == [] {
          RegistrationsStop(attrs, i + 1);
          return Some(IndexError);
        }
        var kind := StringType;
        var default := attr;
        if name[0] == '_' {
          assert Classify(name, attr) == Ok(None);
          i := i + 1;
          continue;
        } else if attr.PyStr? {
          default := PyStr(Escaped(attr.text));
        } else if attr.PyBool? {
          kind := BooleanType;
        } else if attr.PyList? {
          kind := ListType;
        } else if name == "writer_map" {
          kind := WriterMapType;
        } else if EndsWith(name, "_RE") {
          kind := RegexType;
        } else {
          assert Classify(name, attr) == Ok(None);
          i := i + 1;
          continue;
        }
        var reg := Registration(name, kind, default);
        assert Classify(name, attr) == Ok(Some(reg));
        NamesSnoc(regs, reg);
        Register(reg);
        regs := regs + [reg];
        i := i + 1;
      }
      assert attrs[..i] == attrs;
      raised := None;
    }
  }

  /** One more pass of setup_config's loop. */
  lemma RegistrationsStep(attrs: seq<(string, PyValue)>, i: nat)
    requires i < |attrs| && Registrations(attrs[..i]).1.None?
    ensures var prev := Registrations(attrs[..i]).0;
      Registrations(attrs[..i + 1]) == match Classify(attrs[i].0, attrs[i].1)
        case Err(e) => (prev, Some(e))
        case Ok(None) => (prev, None)
        case Ok(Some(reg)) => (prev + [reg], None)
  {
    assert attrs[..i + 1][..i] == attrs[..i];
  }

  lemma NamesSnoc(regs: seq<Registration>, reg: Registration)
    ensures Names(regs + [reg]) == Names(regs) + [reg.name]
  {
    assert (regs + [reg])[..|regs|] == regs;
  }

  /** Once the loop has raised, the later attributes are never read. */
  lemma {:induction false} RegistrationsStop(attrs: seq<(string, PyValue)>, n: nat)
    requires n <= |attrs| && Registrations(attrs[..n]).1.Some?
    ensures Registrations(attrs) == Registrations(attrs[..n])
    decreases |attrs| - n
  {
    if n < |attrs| {
      assert attrs[..n + 1][..n] == attrs[..n];
      RegistrationsStop(attrs, n + 1);
    } else {
      assert attrs[..n] == attrs;
    }
  }
}
