// meeting.Config: the output path of a meeting (Config.filename) and the
// writer loop of Config.save.  The Config attributes save reads are the
// Settings record; the Meeting attributes it reads are the Target record.
module ConfigSave {
  import opened Wrappers
  import opened Strings
  import opened Clock
  import opened Dicts
  import opened WriterKinds

  datatype Settings = Settings(
    logFileDir: string,
    logUrlPrefix: string,
    filenamePattern: string,
    specialChannels: seq<string>,
    specialChannelFilenamePattern: string,
    /** Config._filename ("" when unset); only the realtime test reads it. */
    pinnedFilename: string,
    dontSave: bool,
    /** Config.writers: extension key (possibly with `|k=v` arguments) to writer. */
    writers: seq<(string, WriterKind)>)

  /** What Config reads from its meeting. */
  datatype Target = Target(
    channel: string,
    network: string,
    meetingName: string,
    /** Meeting._filename ("" when unset). */
    filename: string,
    /** None when the meeting has no starttime attribute. */
    starttime: Option<Time>,
    lines: seq<string>)

  const DefaultWriterMap: seq<(string, WriterKind)> :=
    [(".log.html", HTMLlog2), (".1.html", HTML2), (".html", HTML2), (".rst", ReST),
     (".txt", Text), (".rst.html", HTMLfromReST), (".moin.txt", Moin), (".mw.txt", MediaWiki)]

  function PutAll(d: seq<(string, WriterKind)>, m: seq<(string, WriterKind)>): (r: seq<(string, WriterKind)>)
    requires UniqueKeys(d)
    ensures UniqueKeys(r)
    decreases |m|
  {
    if m == [] then d else PutAll(Put(d, m[0].0, m[0].1), m[1..])
  }

  /** Config.__init__: the raw log writer first when asked for, then writer_map in its order. */
  function BuildWriters(writeRawLog: bool, writerMap: seq<(string, WriterKind)>): (r: seq<(string, WriterKind)>)
    ensures UniqueKeys(r)
    ensures writeRawLog ==> |r| >= 1 && r[0].0 == ".log.txt"
  {
    var start := if writeRawLog then [(".log.txt", TextLog)] else [];
    PutAllKeepsFirst(start, writerMap);
    PutAll(start, writerMap)
  }

  lemma {:induction false} PutAllKeepsFirst(d: seq<(string, WriterKind)>, m: seq<(string, WriterKind)>)
    requires UniqueKeys(d)
    ensures |d| >= 1 ==> |PutAll(d, m)| >= 1 && PutAll(d, m)[0].0 == d[0].0
    decreases |m|
  {
    if m != [] && |d| >= 1 {
      var d' := Put(d, m[0].0, m[0].1);
      if !HasKey(d, m[0].0) { assert d'[0] == d[0]; } else { PutSameKeys(d, m[0].0, m[0].1); assert Keys(d')[0] == Keys(d)[0]; }
      PutAllKeepsFirst(d', m[1..]);
    }
  }

  /** str.strip('# ').lower().replace('/', '') on the channel. */
  function NormalChannel(c: string): string {
    Replace(Lower(Strip(c, ch => ch == '#' || ch == ' ')), "/", "")
  }

  /** str.strip(' ').lower().replace('/', '') on the network. */
  function NormalNetwork(n: string): string {
    Replace(Lower(Strip(n, ch => ch == ' ')), "/", "")
  }

  predicate NoUpper(s: string) { forall i | 0 <= i < |s| :: !('A' <= s[i] <= 'Z') }

  lemma {:induction false} DropCharClean(s: string, c: char)
    requires NoUpper(s)
    ensures c !in MapChar(s, c, "") && NoUpper(MapChar(s, c, ""))
  {
    if s != [] {
      DropCharClean(s[1..], c);
    }
  }

  /** Both names come out lower-case and free of '/', so they cannot climb or add directories. */
  lemma NormalNamesClean(c: string, n: string)
    ensures '/' !in NormalChannel(c) && NoUpper(NormalChannel(c))
    ensures '/' !in NormalNetwork(n) && NoUpper(NormalNetwork(n))
  {
    var lc := Lower(Strip(c, ch => ch == '#' || ch == ' '));
    var ln := Lower(Strip(n, ch => ch == ' '));
    ReplaceOneChar(lc, '/', "");
    ReplaceOneChar(ln, '/', "");
    DropCharClean(lc, '/');
    DropCharClean(ln, '/');
  }

  /** The substitutions of the filename pattern; meetingname defaults to the channel. */
  function PatternVars(t: Target): map<string, string> {
    var channel := NormalChannel(t.channel);
    map["channel" := channel,
        "network" := NormalNetwork(t.network),
        "meetingname" := if t.meetingName != "" then Replace(t.meetingName, "/", "") else channel]
  }

  /** os.path.join(a, b) on POSIX. */
  function PathJoin(a: string, b: string): (r: string)
    ensures EndsWith(r, b)
  {
    if StartsWith(b, "/") then b
    else if a == "" || EndsWith(a, "/") then a + b
    else a + "/" + b
  }

  function PatternFor(cfg: Settings, t: Target): string {
    if t.channel in cfg.specialChannels then cfg.specialChannelFilenamePattern else cfg.filenamePattern
  }

  /**
   * Config.filename(url): the meeting's own _filename verbatim, else the
   * pattern with %(channel)s, %(network)s, %(meetingname)s substituted,
   * run through strftime(starttime) and joined to the log directory (or
   * to the URL prefix).
   */
  function Filename(cfg: Settings, t: Target, url: bool): (r: Result<string>)
    ensures t.filename != "" ==> r == Ok(t.filename)
    ensures t.filename == "" && t.starttime.None? ==> r.Err?
  {
    if t.filename != "" then Ok(t.filename)
    else match PercentFormat(PatternFor(cfg, t), PatternVars(t))
      case Err(e) => Err(e)
      case Ok(path) =>
        if t.starttime.None? then Err(AttributeError("starttime"))
        else Ok(PathJoin(if url then cfg.logUrlPrefix else cfg.logFileDir,
                         Strftime(path, t.starttime.value)))
  }

  /** The path of a meeting whose pattern formats to `path` with no `%` left. */
  lemma FilenameOfLiteral(cfg: Settings, t: Target, url: bool, path: string)
    requires t.filename == "" && t.starttime.Some?
    requires PercentFormat(PatternFor(cfg, t), PatternVars(t)) == Ok(path) && '%' !in path
    ensures Filename(cfg, t, url) == Ok(PathJoin(if url then cfg.logUrlPrefix else cfg.logFileDir, path))
  {
    StrftimeLiteral(path, "", t.starttime.value);
    assert path + "" == path;
  }

  lemma SplitChannelNetwork()
    ensures "%(channel)s-%(network)s" == "%(" + "channel" + ")s" + ("-" + ("%(" + "network" + ")s" + ""))
  {
  }

  lemma SplitChannelMeetingName()
    ensures "%(channel)s-%(meetingname)s" == "%(" + "channel" + ")s" + ("-" + ("%(" + "meetingname" + ")s" + ""))
  {
  }

  lemma SplitChannelDate()
    ensures "%(channel)s-%%F" == "%(" + "channel" + ")s" + ("-" + ("%%" + ("F" + "")))
  {
  }

  /** `%(channel)s-%(other)s` substitutes both keys around the dash. */
  lemma FormatTwoKeys(other: string, m: map<string, string>)
    requires "channel" in m && other in m && '(' !in other && ')' !in other
    ensures PercentFormat("%(" + "channel" + ")s" + ("-" + ("%(" + other + ")s" + "")), m)
         == Ok(m["channel"] + "-" + m[other])
  {
    var tail := "%(" + other + ")s" + "";
    PercentFormatKey("channel", "-" + tail, m);
    PercentFormatLiteral("-", tail, m);
    PercentFormatKey(other, "", m);
    assert m["channel"] + ("-" + (m[other] + "")) == m["channel"] + "-" + m[other];
  }

  /** A pattern `%(channel)s-%(network)s` gives a path ending in `channel-network`. */
  lemma FilenameChannelNetwork(cfg: Settings, t: Target, url: bool)
    requires t.filename == "" && t.starttime.Some? && t.channel !in cfg.specialChannels
    requires cfg.filenamePattern == "%(channel)s-%(network)s"
    requires '%' !in NormalChannel(t.channel) && '%' !in NormalNetwork(t.network)
    ensures Filename(cfg, t, url).Ok?
    ensures EndsWith(Filename(cfg, t, url).value, NormalChannel(t.channel) + "-" + NormalNetwork(t.network))
  {
    var vars := PatternVars(t);
    var path := NormalChannel(t.channel) + "-" + NormalNetwork(t.network);
    assert vars["channel"] == NormalChannel(t.channel) && vars["network"] == NormalNetwork(t.network);
    SplitChannelNetwork();
    FormatTwoKeys("network", vars);
    FilenameOfLiteral(cfg, t, url, path);
  }

  /** A pattern `%(channel)s-%(meetingname)s` gives `channel-name`, the name defaulting to the channel. */
  lemma FilenameMeetingName(cfg: Settings, t: Target, url: bool)
    requires t.filename == "" && t.starttime.Some? && t.channel !in cfg.specialChannels
    requires cfg.filenamePattern == "%(channel)s-%(meetingname)s"
    requires '%' !in NormalChannel(t.channel) && '%' !in t.meetingName && '/' !in t.meetingName
    ensures Filename(cfg, t, url).Ok?
    ensures EndsWith(Filename(cfg, t, url).value,
      NormalChannel(t.channel) + "-" + (if t.meetingName != "" then t.meetingName else NormalChannel(t.channel)))
  {
    var name := if t.meetingName != "" then t.meetingName else NormalChannel(t.channel);
    ChannelMeetingNamePath(t);
    assert PatternFor(cfg, t) == "%(channel)s-%(meetingname)s";
    FilenameOfLiteral(cfg, t, url, NormalChannel(t.channel) + "-" + name);
  }

  lemma ChannelMeetingNamePath(t: Target)
    requires '/' !in t.meetingName
    ensures PercentFormat("%(channel)s-%(meetingname)s", PatternVars(t))
         == Ok(NormalChannel(t.channel) + "-" + (if t.meetingName != "" then t.meetingName else NormalChannel(t.channel)))
  {
    var vars := PatternVars(t);
    MeetingNameVar(t);
    assert vars["channel"] == NormalChannel(t.channel);
    SplitChannelMeetingName();
    FormatTwoKeys("meetingname", vars);
  }

  lemma MeetingNameVar(t: Target)
    requires '/' !in t.meetingName
    ensures PatternVars(t)["meetingname"] == (if t.meetingName != "" then t.meetingName else NormalChannel(t.channel))
  {
    ReplaceOneChar(t.meetingName, '/', "");
  }

  /** `%(channel)s-%%F` substitutes the channel and leaves `%F` for strftime. */
  lemma FormatChannelDate(m: map<string, string>)
    requires "channel" in m
    ensures PercentFormat("%(" + "channel" + ")s" + ("-" + ("%%" + ("F" + ""))), m) == Ok(m["channel"] + "-" + "%F")
  {
    PercentFormatKey("channel", "-" + ("%%" + ("F" + "")), m);
    PercentFormatLiteral("-", "%%" + ("F" + ""), m);
    PercentFormatPercent("F" + "", m);
    PercentFormatLiteral("F", "", m);
    assert m["channel"] + ("-" + ("%" + ("F" + ""))) == m["channel"] + "-" + "%F";
  }

  /** A pattern `%(channel)s-%%F` gives a path ending in `channel-` and the start date. */
  lemma FilenameDate(cfg: Settings, t: Target, url: bool)
    requires t.filename == "" && t.starttime.Some? && t.channel !in cfg.specialChannels
    requires cfg.filenamePattern == "%(channel)s-%%F"
    requires '%' !in NormalChannel(t.channel)
    ensures Filename(cfg, t, url).Ok?
    ensures EndsWith(Filename(cfg, t, url).value, NormalChannel(t.channel) + "-" + Strftime("%F", t.starttime.value))
  {
    var vars := PatternVars(t);
    var c := NormalChannel(t.channel);
    assert vars["channel"] == c;
    SplitChannelDate();
    FormatChannelDate(vars);
    StrftimeLiteral(c + "-", "%F", t.starttime.value);
  }

  /**
   * The order Config.save visits the writers in: the `.log.txt` entry moved
   * to the front (list.remove drops the first occurrence), the rest in
   * dict order.
   */
  function WriterOrder(d: seq<(string, WriterKind)>): (r: seq<(string, WriterKind)>)
    ensures multiset(r) == multiset(d)
    ensures HasKey(d, ".log.txt") ==> r[0] == d[IndexOf(d, ".log.txt")]
    ensures !HasKey(d, ".log.txt") ==> r == d
  {
    if HasKey(d, ".log.txt") then
      var i := IndexOf(d, ".log.txt");
      assert d == d[..i] + [d[i]] + d[i + 1..];
      [d[i]] + d[..i] + d[i + 1..]
    else d
  }

  /**
   * `ext|k=v|...` splits into the bare extension and the argument dict;
   * a piece without `=` is the ValueError of dict() on a one-element list.
   */
  function ParseArgs(pieces: seq<string>, acc: seq<(string, string)>): (r: Result<seq<(string, string)>>)
    requires UniqueKeys(acc)
    ensures r.Ok? ==> UniqueKeys(r.value)
    ensures r.Err? <==> exists i | 0 <= i < |pieces| :: !Contains(pieces[i], "=")
  {
    if pieces == [] then Ok(acc)
    else
      var (k, v) := SplitOnce(pieces[0], "=");
      assert v.Some? <==> Contains(pieces[0], "=") by {
        if v.Some? { assert OccursAt(pieces[0], "=", |k|); }
      }
      assert forall i | 1 <= i < |pieces| :: pieces[i] == pieces[1..][i - 1];
      if v.None? then Err(ValueError("dictionary update sequence element has length 1; 2 is required"))
      else ParseArgs(pieces[1..], Put(acc, k, v.value))
  }

  function SplitKey(key: string): (r: (string, Result<seq<(string, string)>>))
    ensures '|' !in r.0
    ensures '|' !in key ==> r == (key, Ok([]))
  {
    var (ext, rest) := SplitOnce(key, "|");
    ContainsChar(ext, '|');
    if rest.None? then
      (key, Ok([]))
    else
      assert key[|ext|] == '|' by {
        assert key == ext + "|" + rest.value;
      }
      (ext, ParseArgs(Split(rest.value, "|"), []))
  }

  datatype FileWrite = FileWrite(path: string, content: Rendered)

  datatype SaveState = SaveState(results: seq<(string, Rendered)>, writes: seq<FileWrite>, error: Option<Error>)

  datatype SaveRun = Skipped | Ran(results: seq<(string, Rendered)>, writes: seq<FileWrite>, error: Option<Error>)

  /** One pass of the writer loop, over one (extension key, writer) entry. */
  function Step(cfg: Settings, t: Target, realtime: bool, raw: string, entry: (string, WriterKind), st: SaveState): (r: SaveState)
    requires UniqueKeys(st.results)
    ensures UniqueKeys(r.results)
    ensures |st.writes| <= |r.writes| && r.writes[..|st.writes|] == st.writes
  {
    var (key, w) := entry;
    if realtime && (!UpdatesRealtime(w) || cfg.pinnedFilename != "") then st
    else
      var (ext, args) := SplitKey(key);
      match args
      case Err(e) => st.(error := Some(e))
      case Ok(a) =>
        match Format(w, ext, a, t.lines)
        case Err(e) => st.(error := Some(e))
        case Ok(text) => Record(cfg, raw, ext, text, st)
  }

  /** The end of a pass: the result stored under its extension and, when it is a str, written. */
  function Record(cfg: Settings, raw: string, ext: string, text: Rendered, st: SaveState): (r: SaveState)
    requires UniqueKeys(st.results)
    ensures UniqueKeys(r.results) && r.error.None?
    ensures r.writes == (if IsText(text) && !cfg.dontSave then st.writes + [FileWrite(raw + ext, text)] else st.writes)
  {
    var results := Put(st.results, ext, text);
    if IsText(text) && !cfg.dontSave
    then SaveState(results, st.writes + [FileWrite(raw + ext, text)], None)
    else SaveState(results, st.writes, None)
  }

  /** The loop from position i on; a raised exception ends it. */
  function RunFrom(cfg: Settings, t: Target, realtime: bool, raw: string, order: seq<(string, WriterKind)>, i: nat, st: SaveState): (r: SaveState)
    requires i <= |order| && UniqueKeys(st.results)
    ensures LoopState(cfg, raw, st) ==> LoopState(cfg, raw, r)
    ensures |st.writes| <= |r.writes| && r.writes[..|st.writes|] == st.writes
    ensures realtime && RealtimeState(cfg, st) ==> RealtimeState(cfg, r)
    decreases |order| - i
  {
    if i == |order| || st.error.Some? then st
    else
      var st' := Step(cfg, t, realtime, raw, order[i], st);
      StepLoopState(cfg, t, realtime, raw, order[i], st);
      StepRealtime(cfg, t, raw, order[i], st);
      RunFrom(cfg, t, realtime, raw, order, i + 1, st')
  }

  /** Config.save(realtime_update) as a value: what it returns, writes and raises. */
  function SaveSpec(cfg: Settings, t: Target, realtime: bool): SaveRun {
    if realtime && t.starttime.None? then Skipped
    else match Filename(cfg, t, false)
      case Err(e) => Ran([], [], Some(e))
      case Ok(raw) =>
        var st := RunFrom(cfg, t, realtime, raw, WriterOrder(cfg.writers), 0, SaveState([], [], None));
        Ran(st.results, st.writes, st.error)
  }

  /** Config.save: the writer loop over the reordered writer list. */
  method Save(cfg: Settings, t: Target, realtime: bool) returns (run: SaveRun)
    ensures run == SaveSpec(cfg, t, realtime)
  {
    if realtime && t.starttime.None? {
      return Skipped;
    }
    var rawname := Filename(cfg, t, false);
    if rawname.Err? {
      return Ran([], [], Some(rawname.error));
    }
    var raw := rawname.value;
    var order := WriterOrder(cfg.writers);
    var st := SaveState([], [], None);
    var i := 0;
    while i < |order| && st.error.None?
      invariant 0 <= i <= |order| && UniqueKeys(st.results)
      invariant RunFrom(cfg, t, realtime, raw, order, i, st)
             == RunFrom(cfg, t, realtime, raw, order, 0, SaveState([], [], None))
      decreases |order| - i
    {
      var (key, w) := order[i];
      if realtime && (!UpdatesRealtime(w) || cfg.pinnedFilename != "") {
        i := i + 1;
        continue;
      }
      var (ext, args) := SplitKey(key);
      if args.Err? {
        st := st.(error := Some(args.error));
      } else {
        var text := Format(w, ext, args.value, t.lines);
        if text.Err? {
          st := st.(error := Some(text.error));
        } else {
          var results := Put(st.results, ext, text.value);
          if IsText(text.value) && !cfg.dontSave {
            st := SaveState(results, st.writes + [FileWrite(raw + ext, text.value)], None);
          } else {
            st := SaveState(results, st.writes, None);
          }
        }
      }
      i := i + 1;
    }
    return Ran(st.results, st.writes, st.error);
  }

  /** What every state of the writer loop satisfies under a realtime save. */
  predicate RealtimeState(cfg: Settings, st: SaveState) {
    RawResults(st.results) && RawWrites(st.writes)
    && (cfg.pinnedFilename != "" ==> st.results == [] && st.writes == [])
  }

  predicate RawResults(results: seq<(string, Rendered)>) {
    forall i | 0 <= i < |results| :: results[i].1.RawLog?
  }

  predicate RawWrites(writes: seq<FileWrite>) {
    forall i | 0 <= i < |writes| :: writes[i].content.RawLog?
  }

  lemma StepRealtime(cfg: Settings, t: Target, raw: string, entry: (string, WriterKind), st: SaveState)
    requires UniqueKeys(st.results)
    ensures RealtimeState(cfg, st) ==> RealtimeState(cfg, Step(cfg, t, true, raw, entry, st))
  {
    var (key, w) := entry;
    if RealtimeState(cfg, st) && w == TextLog && cfg.pinnedFilename == "" {
      var (ext, args) := SplitKey(key);
      if args.Ok? && Format(w, ext, args.value, t.lines).Ok? {
        RecordRealtime(cfg, raw, ext, Format(w, ext, args.value, t.lines).value, st);
      }
    }
  }

  lemma RecordRealtime(cfg: Settings, raw: string, ext: string, text: Rendered, st: SaveState)
    requires UniqueKeys(st.results) && RealtimeState(cfg, st) && text.RawLog? && cfg.pinnedFilename == ""
    ensures RealtimeState(cfg, Record(cfg, raw, ext, text, st))
  {
    var results := Put(st.results, ext, text);
    forall i | 0 <= i < |results| ensures results[i].1.RawLog? {
      if results[i].0 != ext { assert results[i] in st.results; }
    }
  }

  /**
   * A realtime save renders only the raw log (the sole writer with
   * update_realtime), and nothing at all when Config._filename is set.
   */
  lemma SaveRealtime(cfg: Settings, t: Target)
    ensures SaveSpec(cfg, t, true).Ran? ==>
      var run := SaveSpec(cfg, t, true);
      RawResults(run.results) && RawWrites(run.writes)
      && (cfg.pinnedFilename != "" ==> run.results == [] && run.writes == [])
    ensures t.starttime.None? ==> SaveSpec(cfg, t, true) == Skipped
  {
    if t.starttime.Some? && Filename(cfg, t, false).Ok? {
      assert RealtimeState(cfg, SaveState([], [], None));
    }
  }

  /** A write Config.save may make: str content, to the raw name plus a bare extension. */
  predicate GoodWrite(raw: string, w: FileWrite) {
    IsText(w.content) && StartsWith(w.path, raw) && '|' !in w.path[|raw|..]
  }

  /** What every state of the writer loop satisfies: bare keys and text-only writes under the raw name. */
  predicate LoopState(cfg: Settings, raw: string, st: SaveState) {
    BareKeys(st.results) && GoodWrites(raw, st.writes) && (cfg.dontSave ==> st.writes == [])
  }

  predicate BareKeys(results: seq<(string, Rendered)>) {
    forall i | 0 <= i < |results| :: '|' !in results[i].0
  }

  predicate GoodWrites(raw: string, writes: seq<FileWrite>) {
    forall i | 0 <= i < |writes| :: GoodWrite(raw, writes[i])
  }

  lemma StepLoopState(cfg: Settings, t: Target, realtime: bool, raw: string, entry: (string, WriterKind), st: SaveState)
    requires UniqueKeys(st.results)
    ensures LoopState(cfg, raw, st) ==> LoopState(cfg, raw, Step(cfg, t, realtime, raw, entry, st))
  {
    var (key, w) := entry;
    if LoopState(cfg, raw, st) && !(realtime && (!UpdatesRealtime(w) || cfg.pinnedFilename != "")) {
      var (ext, args) := SplitKey(key);
      if args.Ok? && Format(w, ext, args.value, t.lines).Ok? {
        RecordLoopState(cfg, raw, ext, Format(w, ext, args.value, t.lines).value, st);
      }
    }
  }

  lemma RecordLoopState(cfg: Settings, raw: string, ext: string, text: Rendered, st: SaveState)
    requires UniqueKeys(st.results) && LoopState(cfg, raw, st) && '|' !in ext
    ensures LoopState(cfg, raw, Record(cfg, raw, ext, text, st))
  {
    var results := Put(st.results, ext, text);
    forall i | 0 <= i < |results| ensures '|' !in results[i].0 {
      if results[i].0 != ext { assert results[i] in st.results; }
    }
    if IsText(text) && !cfg.dontSave {
      assert GoodWrite(raw, FileWrite(raw + ext, text)) by {
        assert (raw + ext)[|raw|..] == ext;
      }
    }
  }

  /**
   * Results are keyed by the bare extension; only str results are written,
   * each to the raw file name plus its bare extension, and none under dontSave.
   */
  lemma SaveOutputs(cfg: Settings, t: Target, realtime: bool)
    ensures SaveSpec(cfg, t, realtime).Ran? ==>
      var run := SaveSpec(cfg, t, realtime);
      (forall i | 0 <= i < |run.results| :: '|' !in run.results[i].0)
      && (cfg.dontSave ==> run.writes == [])
      && (Filename(cfg, t, false).Ok? ==>
            forall i | 0 <= i < |run.writes| :: GoodWrite(Filename(cfg, t, false).value, run.writes[i]))
  {
    if !(realtime && t.starttime.None?) && Filename(cfg, t, false).Ok? {
      assert LoopState(cfg, Filename(cfg, t, false).value, SaveState([], [], None));
    }
  }

  /**
   * With the raw log configured (.log.txt to TextLog), a full save writes
   * the transcript first, before any other writer can fail.
   */
  lemma SaveRawLogFirst(cfg: Settings, t: Target)
    requires UniqueKeys(cfg.writers) && (".log.txt", TextLog) in cfg.writers
    requires Filename(cfg, t, false).Ok? && !cfg.dontSave
    ensures var run := SaveSpec(cfg, t, false);
      run.Ran? && |run.writes| >= 1
      && run.writes[0] == FileWrite(Filename(cfg, t, false).value + ".log.txt", RawLog(Join("\n", t.lines)))
  {
    var raw := Filename(cfg, t, false).value;
    var order := WriterOrder(cfg.writers);
    var j :| 0 <= j < |cfg.writers| && cfg.writers[j] == (".log.txt", TextLog);
    assert HasKey(cfg.writers, ".log.txt");
    assert order[0] == (".log.txt", TextLog);
    var st0 := SaveState([], [], None);
    assert '|' !in ".log.txt";
    StepRawLog(cfg, t, raw, ".log.txt");
    var st1 := Step(cfg, t, false, raw, order[0], st0);
    var run := RunFrom(cfg, t, false, raw, order, 1, st1);
    assert RunFrom(cfg, t, false, raw, order, 0, st0) == run;
    assert run.writes[0] == run.writes[..1][0];
  }

  /** A pass over a plain key mapped to TextLog writes the transcript. */
  lemma StepRawLog(cfg: Settings, t: Target, raw: string, key: string)
    requires !cfg.dontSave && '|' !in key
    ensures var st := Step(cfg, t, false, raw, (key, TextLog), SaveState([], [], None));
      st.writes == [FileWrite(raw + key, RawLog(Join("\n", t.lines)))]
      && st.error.None? && LoopState(cfg, raw, st)
  {
    var w := FileWrite(raw + key, RawLog(Join("\n", t.lines)));
    assert GoodWrite(raw, w) by {
      assert (raw + key)[|raw|..] == key;
    }
  }
}
