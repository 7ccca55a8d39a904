// The writer classes of the writers module, looked up by attribute name
// (as WriterMap.set and Config.save do), with the facts Config.save needs
// about each: whether it is realtime-capable, whether its format() result
// is text, and which keyword arguments format() accepts.
module WriterKinds {
  import opened Wrappers
  import opened Strings

  datatype WriterKind =
    | BaseWriter | Template | TextLog | HTMLlog1 | HTMLlog2 | HTML1 | HTML2
    | ReST | HTMLfromReST | Text | MediaWiki | PmWiki | Moin

  /** The class's __name__ (aliases print under the class they alias). */
  function ClassName(k: WriterKind): string {
    match k
    case BaseWriter => "_BaseWriter"
    case Template => "Template"
    case TextLog => "TextLog"
    case HTMLlog1 => "HTMLlog1"
    case HTMLlog2 => "HTMLlog2"
    case HTML1 => "HTML1"
    case HTML2 => "HTML2"
    case ReST => "ReST"
    case HTMLfromReST => "HTMLfromReST"
    case Text => "Text"
    case MediaWiki => "MediaWiki"
    case PmWiki => "PmWiki"
    case Moin => "Moin"
  }

  /**
   * An attribute of the writers module: a writer class, another object
   * with a __name__ (a helper function, a helper class, an imported
   * module), or an object without one (a compiled regex, a string).
   */
  datatype ModuleAttr =
    | WriterClass(kind: WriterKind)
    | NamedAttr(name: string)
    | UnnamedAttr(name: string)

  const NamedHelpers: seq<string> :=
    ["os", "re", "time", "textwrap", "html", "rst", "text", "mw", "moin",
     "TextWrapper", "wrapList", "indentItem", "replaceWRAP", "_CSSmanager"]

  const UnnamedHelpers: seq<string> :=
    ["__version__", "rstReplaceRE", "html_template", "__name__", "__doc__", "__package__",
     "__loader__", "__spec__", "__file__", "__cached__", "__builtins__"]

  const AllKinds: seq<WriterKind> :=
    [BaseWriter, Template, TextLog, HTMLlog1, HTMLlog2, HTML1, HTML2,
     ReST, HTMLfromReST, Text, MediaWiki, PmWiki, Moin]

  function KindNamed(name: string, kinds: seq<WriterKind>): (r: Option<WriterKind>)
    ensures r.Some? ==> r.value in kinds && ClassName(r.value) == name
    ensures r.None? ==> forall k | k in kinds :: ClassName(k) != name
  {
    if kinds == [] then None
    else if ClassName(kinds[0]) == name then Some(kinds[0])
    else KindNamed(name, kinds[1..])
  }

  /** getattr(writers, name), or None where hasattr is false. */
  function Lookup(name: string): (r: Option<ModuleAttr>)
    ensures r.Some? && r.value.NamedAttr? ==> r.value.name == name
  {
    if name == "HTMLlog" then Some(WriterClass(HTMLlog2))
    else if name == "HTML" then Some(WriterClass(HTML2))
    else match KindNamed(name, AllKinds)
      case Some(k) => Some(WriterClass(k))
      case None =>
        if name in NamedHelpers then Some(NamedAttr(name))
        else if name in UnnamedHelpers then Some(UnnamedAttr(name))
        else None
  }

  /** The attribute's __name__, or None where formatting it with %s of __name__ fails. */
  function PyName(a: ModuleAttr): Option<string> {
    match a
    case WriterClass(k) => Some(ClassName(k))
    case NamedAttr(n) => Some(n)
    case UnnamedAttr(_) => None
  }

  lemma AllKindsComplete(k: WriterKind)
    ensures k in AllKinds
  {
  }

  lemma ClassNamesDistinct(k: WriterKind, j: WriterKind)
    requires ClassName(k) == ClassName(j)
    ensures k == j
  {
  }

  /** Looking up an attribute's own __name__ gives the attribute back. */
  lemma LookupPyName(name: string)
    requires Lookup(name).Some? && PyName(Lookup(name).value).Some?
    ensures Lookup(PyName(Lookup(name).value).value) == Lookup(name)
  {
    var a := Lookup(name).value;
    match a
    case WriterClass(k) =>
      AllKindsComplete(k);
      var n := ClassName(k);
      assert n != "HTMLlog" && n != "HTML";
      var found := KindNamed(n, AllKinds);
      assert found.Some?;
      ClassNamesDistinct(found.value, k);
    case NamedAttr(n) =>
      assert n == name;
    case UnnamedAttr(_) =>
  }

  /** Writer class names, including the two aliases, are exactly what Lookup maps to a class. */
  lemma LookupWriterClass(name: string, k: WriterKind)
    ensures Lookup(name) == Some(WriterClass(k)) <==>
      name == ClassName(k) || (name == "HTMLlog" && k == HTMLlog2) || (name == "HTML" && k == HTML2)
  {
    AllKindsComplete(k);
    if name == ClassName(k) {
      var found := KindNamed(name, AllKinds);
      ClassNamesDistinct(found.value, k);
    }
  }

  /** Only TextLog sets update_realtime. */
  predicate UpdatesRealtime(k: WriterKind) { k == TextLog }

  /** The keyword arguments format() takes besides the extension. */
  function AcceptedArgs(k: WriterKind): set<string> {
    if k == Template then {"template"} else {}
  }

  /** What writer.format(extension, **args) returns. */
  datatype Rendered =
    | RawLog(text: string)
    | Document(kind: WriterKind, extension: string, args: seq<(string, string)>)

  /**
   * Only str results are written to disk: HTMLlog1 (pygments with an output
   * encoding) and HTMLfromReST (docutils with an output encoding) give bytes.
   */
  predicate IsText(r: Rendered) {
    r.RawLog? || (r.kind != HTMLlog1 && r.kind != HTMLfromReST)
  }

  function FirstUnaccepted(k: WriterKind, args: seq<(string, string)>): (r: Option<string>)
    ensures r.Some? ==> r.value !in AcceptedArgs(k) && exists i | 0 <= i < |args| :: args[i].0 == r.value
    ensures r.None? ==> forall i | 0 <= i < |args| :: args[i].0 in AcceptedArgs(k)
  {
    if args == [] then None
    else if args[0].0 !in AcceptedArgs(k) then Some(args[0].0)
    else
      var rest := FirstUnaccepted(k, args[1..]);
      assert forall i | 1 <= i < |args| :: args[i] == args[1..][i - 1];
      rest
  }

  /**
   * writer.format(extension, **args) on a writer over a transcript: an
   * unexpected keyword is a TypeError, _BaseWriter raises
   * NotImplementedError, TextLog joins the transcript with newlines.
   */
  function Format(k: WriterKind, extension: string, args: seq<(string, string)>, lines: seq<string>): (r: Result<Rendered>)
    ensures r.Ok? <==> (k != BaseWriter && forall i | 0 <= i < |args| :: args[i].0 in AcceptedArgs(k))
    ensures r.Ok? && k == TextLog ==> r.value == RawLog(Join("\n", lines))
    ensures r.Ok? && k != TextLog ==> r.value == Document(k, extension, args)
  {
    match FirstUnaccepted(k, args)
    case Some(name) => Err(TypeError("format() got an unexpected keyword argument '" + name + "'"))
    case None =>
      if k == BaseWriter then Err(NotImplementedError)
      else if k == TextLog then Ok(RawLog(Join("\n", lines)))
      else Ok(Document(k, extension, args))
  }
}
