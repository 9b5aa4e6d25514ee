/** cloud/services/cloudconfig.go: how the provider puts commands of its own before those of the bootstrap data. */
module CloudConfig {
  import opened Strings

  const HEADER := "#cloud-config"
  const TEMPLATE := "## template:"

  // ---- the header

  predicate IsHeader(line: string) {
    HasPrefix(TrimSpace(line), HEADER)
  }

  /** A line that may stand before the header. */
  predicate IsPreamble(line: string) {
    !IsHeader(line) && (TrimSpace(line) == "" || HasPrefix(TrimSpace(line), TEMPLATE))
  }

  datatype Split = NotCloudConfig | CloudConfig(prefix: string, body: string)

  function SplitHeader(text: string): Split
    decreases |text|
  {
    var (line, tail) := CutLine(text);
    if IsHeader(line) then CloudConfig("", tail)
    else if IsPreamble(line) && tail != "" then
      match SplitHeader(tail)
      case NotCloudConfig => NotCloudConfig
      case CloudConfig(prefix, body) => CloudConfig(line + "\n" + prefix, body)
    else NotCloudConfig
  }

  /** The pair that splitCloudConfigHeader returns. */
  function AsPair(s: Split): (string, string) {
    if s.CloudConfig? then (s.prefix, s.body) else ("", "")
  }

  function Prefixed(prefix: string, s: Split): Split {
    if s.CloudConfig? then CloudConfig(prefix + s.prefix, s.body) else s
  }

  lemma PrefixedAgain(prefix: string, line: string, s: Split)
    ensures Prefixed(prefix + (line + "\n"), s) == Prefixed(prefix, Prefixed(line + "\n", s))
  {
    if s.CloudConfig? {
      assert prefix + (line + "\n") + s.prefix == prefix + (line + "\n" + s.prefix);
    }
  }

  /** The three branches of the loop. */
  lemma SplitStep(text: string)
    ensures var (line, tail) := CutLine(text);
            SplitHeader(text) ==
              if HasPrefix(TrimSpace(line), HEADER) then CloudConfig("", tail)
              else if (TrimSpace(line) == "" || HasPrefix(TrimSpace(line), TEMPLATE)) && tail != "" then
                Prefixed(line + "\n", SplitHeader(tail))
              else NotCloudConfig
  {
    hide TrimSpace, CutLine;
  }

  method SplitCloudConfigHeader(userData: string) returns (prefix: string, body: string)
    ensures (prefix, body) == AsPair(SplitHeader(userData))
  {
    hide SplitHeader, TrimSpace, CutLine, HasPrefix;
    prefix := "";
    var rest := userData;
    assert forall s: Split :: Prefixed("", s) == s by {
      forall s: Split ensures Prefixed("", s) == s {
        assert s.CloudConfig? ==> "" + s.prefix == s.prefix;
      }
    }
    while true
      invariant Prefixed(prefix, SplitHeader(rest)) == SplitHeader(userData)
      decreases |rest|
    {
      var (line, tail) := CutLine(rest);
      var trimmed := TrimSpace(line);
      SplitStep(rest);
      if HasPrefix(trimmed, HEADER) {
        assert prefix + "" == prefix;
        return prefix, tail;
      } else if trimmed == "" || HasPrefix(trimmed, TEMPLATE) {
        PrefixedAgain(prefix, line, SplitHeader(tail));
        prefix := prefix + (line + "\n");
        rest := tail;
        if rest == "" {
          return "", "";
        }
      } else {
        return "", "";
      }
    }
  }

  /** Nothing but lines that may stand before the header, each with its newline. */
  ghost predicate IsPrefix(text: string)
    decreases |text|
  {
    text == "" ||
    var (line, tail) := CutLine(text);
    text == line + "\n" + tail && IsPreamble(line) && IsPrefix(tail)
  }

  ghost predicate Decomposes(text: string, prefix: string, line: string, body: string) {
    text == prefix + line + "\n" + body && IsPrefix(prefix) && '\n' !in line && IsHeader(line)
  }

  lemma Decomposed(first: string, prefix: string, line: string, body: string)
    requires '\n' !in first && IsPreamble(first) && IsPrefix(prefix) && '\n' !in line && IsHeader(line)
    ensures Decomposes(first + "\n" + (prefix + line + "\n" + body), first + "\n" + prefix, line, body)
  {
    hide TrimSpace, CutLine, HasPrefix;
    CutOfLine(first, prefix);
    assert first + "\n" + (prefix + line + "\n" + body) == (first + "\n" + prefix) + line + "\n" + body;
  }

  /** A non-empty body means that the input is exactly prefix, header line, newline and body. */
  lemma {:induction false} SplitIsExact(text: string) returns (line: string)
    requires SplitHeader(text).CloudConfig? && SplitHeader(text).body != ""
    ensures Decomposes(text, SplitHeader(text).prefix, line, SplitHeader(text).body)
    decreases |text|
  {
    hide TrimSpace, CutLine, HasPrefix;
    var (first, tail) := CutLine(text);
    if IsHeader(first) {
      line := first;
      assert text == "" + line + "\n" + tail;
    } else {
      line := SplitIsExact(tail);
      var s := SplitHeader(tail);
      Decomposed(first, s.prefix, line, s.body);
    }
  }

  /** Splitting undoes assembling, for every prefix, header line and body. */
  lemma {:induction false} SplitOfAssembled(prefix: string, line: string, body: string)
    requires IsPrefix(prefix) && '\n' !in line && IsHeader(line)
    ensures SplitHeader(prefix + line + "\n" + body) == CloudConfig(prefix, body)
    decreases |prefix|
  {
    hide TrimSpace, CutLine, HasPrefix;
    var text := prefix + line + "\n" + body;
    if prefix == "" {
      assert text == line + "\n" + body;
      CutOfLine(line, body);
    } else {
      var (first, rest) := CutLine(prefix);
      var tail := rest + line + "\n" + body;
      SplitOfAssembled(rest, line, body);
      assert text == first + "\n" + tail;
      CutOfLine(first, tail);
    }
  }

  lemma HeaderIsHeader()
    ensures IsHeader(HEADER) && '\n' !in HEADER
  {
    assert !IsSpace(HEADER[0]) && !IsSpace(HEADER[|HEADER| - 1]);
  }

  /**
   Which lines count, said of the line itself: a header line begins with "#cloud-config" after spaces, and before it may stand
   lines of spaces and lines that begin with "## template:" after spaces.
   */
  lemma LinesExact(line: string)
    ensures IsHeader(line) <==> BeginsWith(line, "#cloud-config")
    ensures IsPreamble(line) <==> AllSpace(line) || BeginsWith(line, "## template:")
  {
    hide TrimSpace, BeginsWith, AllSpace;
    TrimmedBeginsWith(line, "#cloud-config");
    TrimmedBeginsWith(line, "## template:");
    TrimmedIsEmpty(line);
    assert HEADER[1] == 'c' && TEMPLATE[1] == '#';
  }

  // ---- the document

  datatype Value = Null | Text(s: string) | List(items: seq<Value>) | Opaque(repr: string)

  type Doc = map<string, Value>

  datatype Parsed = ParseError | NoDoc | Parsed(doc: Doc)
  datatype Printed = PrintError | Printed(text: string)

  /** A YAML library. */
  datatype Yaml = Yaml(parse: string -> Parsed, print_: Doc -> Printed)

  /** Printed documents are not empty, and parse to what was printed. */
  ghost predicate Lawful(y: Yaml) {
    forall d: Doc :: y.print_(d).Printed? ==> y.print_(d).text != "" && y.parse(y.print_(d).text) == Parsed(d)
  }

  datatype Result = Ok(text: string) | Error

  function Texts(cmds: seq<string>): seq<Value> {
    seq(|cmds|, i requires 0 <= i < |cmds| => Text(cmds[i]))
  }

  datatype Commands = NotAList | Commands(items: seq<Value>)

  /** The runcmd list of a document; a missing or null one is empty. */
  function RunCmd(d: Doc): Commands {
    if "runcmd" !in d || d["runcmd"].Null? then Commands([])
    else if d["runcmd"].List? then Commands(d["runcmd"].items)
    else NotAList
  }

  function DocOf(p: Parsed): Doc
    requires !p.ParseError?
  {
    if p.Parsed? then p.doc else map[]
  }

  function Prepend(y: Yaml, userData: string, cmds: seq<string>): Result {
    var (prefix, body) := AsPair(SplitHeader(userData));
    if |cmds| == 0 || body == "" then Ok(userData)
    else
      var p := y.parse(body);
      if p.ParseError? || RunCmd(DocOf(p)).NotAList? then Error
      else
        var d := DocOf(p);
        var out := y.print_(d["runcmd" := List(Texts(cmds) + RunCmd(d).items)]);
        if out.PrintError? then Error else Ok(prefix + HEADER + "\n" + out.text)
  }

  method PrependCloudConfigRunCmds(y: Yaml, userData: string, cmds: seq<string>) returns (r: Result)
    ensures r == Prepend(y, userData, cmds)
  {
    hide SplitHeader;
    if |cmds| == 0 {
      return Ok(userData);
    }
    var prefix, body := SplitCloudConfigHeader(userData);
    if body == "" {
      return Ok(userData);
    }
    var p := y.parse(body);
    if p.ParseError? {
      return Error;
    }
    var doc: Doc := map[];
    if p.Parsed? {
      doc := p.doc;
    }
    var runcmd := [];
    if "runcmd" in doc && !doc["runcmd"].Null? {
      if !doc["runcmd"].List? {
        return Error;
      }
      runcmd := doc["runcmd"].items;
    }
    var prepended := [];
    for i := 0 to |cmds|
      invariant prepended == Texts(cmds[..i])
    {
      prepended := prepended + [Text(cmds[i])];
      assert cmds[..i + 1] == cmds[..i] + [cmds[i]];
    }
    assert cmds[..|cmds|] == cmds;
    doc := doc["runcmd" := List(prepended + runcmd)];
    var out := y.print_(doc);
    if out.PrintError? {
      return Error;
    }
    return Ok(prefix + HEADER + "\n" + out.text);
  }

  /** The text is a cloud-config document: preamble lines, a header line, and a body that is not empty. */
  ghost predicate IsCloudConfig(text: string) {
    exists prefix, line, body :: body != "" && Decomposes(text, prefix, line, body)
  }

  /** The splitter finds a body in exactly the cloud-config documents. */
  lemma BodyIffCloudConfig(text: string)
    ensures AsPair(SplitHeader(text)).1 != "" <==> IsCloudConfig(text)
  {
    hide SplitHeader, IsPrefix, IsHeader;
    if AsPair(SplitHeader(text)).1 != "" {
      var line := SplitIsExact(text);
    }
    if IsCloudConfig(text) {
      var prefix, line, body :| body != "" && Decomposes(text, prefix, line, body);
      SplitOfAssembled(prefix, line, body);
    }
  }

  /** The commands that a document has so far, if its runcmd is a list, null or missing. */
  ghost predicate HasCommands(d: Doc, items: seq<Value>) {
    if "runcmd" in d && !d["runcmd"].Null? then d["runcmd"] == List(items) else items == []
  }

  /** The document d' is d with the commands in front: text by text, then what was there, and nothing else is touched. */
  ghost predicate InFront(d: Doc, d': Doc, cmds: seq<string>) {
    && d'.Keys == d.Keys + {"runcmd"} && (forall key :: key in d && key != "runcmd" ==> d'[key] == d[key])
    && d'["runcmd"].List?
    && exists items ::
         && HasCommands(d, items) && |d'["runcmd"].items| == |cmds| + |items|
         && (forall i :: 0 <= i < |cmds| ==> d'["runcmd"].items[i] == Text(cmds[i]))
         && (forall i :: 0 <= i < |items| ==> d'["runcmd"].items[|cmds| + i] == items[i])
  }

  /** The document that a body stands for; an empty one for null. */
  ghost predicate StandsFor(y: Yaml, body: string, d: Doc) {
    y.parse(body) == Parsed(d) || (y.parse(body) == NoDoc && d == map[])
  }

  /** The text is the prefix, a fresh header line, and a print of the body's document with the commands in front. */
  ghost predicate Yields(y: Yaml, prefix: string, body: string, cmds: seq<string>, text: string) {
    exists d, d' ::
      StandsFor(y, body, d) && InFront(d, d', cmds) && y.print_(d').Printed? && text == prefix + "#cloud-config\n" + y.print_(d').text
  }

  /** What the prepend prints. */
  lemma PrintedIsInFront(d: Doc, cmds: seq<string>)
    requires RunCmd(d).Commands?
    ensures InFront(d, d["runcmd" := List(Texts(cmds) + RunCmd(d).items)], cmds)
  {
    var items := RunCmd(d).items;
    var d' := d["runcmd" := List(Texts(cmds) + items)];
    assert HasCommands(d, items);
    assert d'.Keys == d.Keys + {"runcmd"};
  }

  /** There is only one such document. */
  lemma InFrontIsUnique(d: Doc, d1: Doc, d2: Doc, cmds: seq<string>)
    requires InFront(d, d1, cmds) && InFront(d, d2, cmds)
    ensures d1 == d2
  {
    var i1 :| HasCommands(d, i1) && |d1["runcmd"].items| == |cmds| + |i1|
              && (forall i :: 0 <= i < |cmds| ==> d1["runcmd"].items[i] == Text(cmds[i]))
              && (forall i :: 0 <= i < |i1| ==> d1["runcmd"].items[|cmds| + i] == i1[i]);
    var i2 :| HasCommands(d, i2) && |d2["runcmd"].items| == |cmds| + |i2|
              && (forall i :: 0 <= i < |cmds| ==> d2["runcmd"].items[i] == Text(cmds[i]))
              && (forall i :: 0 <= i < |i2| ==> d2["runcmd"].items[|cmds| + i] == i2[i]);
    assert i1 == i2;
    var r1, r2 := d1["runcmd"].items, d2["runcmd"].items;
    forall i | 0 <= i < |r1| ensures r1[i] == r2[i] {
      if i >= |cmds| { assert r1[|cmds| + (i - |cmds|)] == i1[i - |cmds|]; }
    }
    assert r1 == r2;
  }

  /**
   What a prepend to a cloud-config document does: it yields a text exactly if the body parses to a document whose runcmd
   is a list, null or missing, and the text is the old lines before the header, the header, and a print of that document
   with the commands in front. The result is a cloud-config document again, which parses to just that.
   */
  lemma PrependMeaning(y: Yaml, userData: string, cmds: seq<string>)
    requires Lawful(y) && cmds != [] && SplitHeader(userData).CloudConfig? && SplitHeader(userData).body != ""
    ensures forall text :: Prepend(y, userData, cmds) == Ok(text) <==>
                           Yields(y, SplitHeader(userData).prefix, SplitHeader(userData).body, cmds, text)
    ensures Prepend(y, userData, cmds).Ok? ==>
              var old_ := SplitHeader(userData);
              var new_ := SplitHeader(Prepend(y, userData, cmds).text);
              && new_.CloudConfig? && new_.prefix == old_.prefix && new_.body != "" && y.parse(new_.body).Parsed?
              && exists d :: StandsFor(y, old_.body, d) && InFront(d, y.parse(new_.body).doc, cmds)
  {
    hide SplitHeader, InFront, Texts, Yields;
    var s := SplitHeader(userData);
    if Prepend(y, userData, cmds).Ok? {
      PrependPrints(y, userData, cmds);
      PrintedIsInFront(DocOf(y.parse(s.body)), cmds);
      assert StandsFor(y, s.body, DocOf(y.parse(s.body)));
    }
    forall text ensures Prepend(y, userData, cmds) == Ok(text) <==> Yields(y, s.prefix, s.body, cmds, text) {
      PrependYields(y, userData, cmds, text);
    }
  }

  lemma PrependYields(y: Yaml, userData: string, cmds: seq<string>, text: string)
    requires cmds != [] && SplitHeader(userData).CloudConfig? && SplitHeader(userData).body != ""
    ensures Prepend(y, userData, cmds) == Ok(text) <==> Yields(y, SplitHeader(userData).prefix, SplitHeader(userData).body, cmds, text)
  {
    hide SplitHeader, InFront, Texts;
    var s := SplitHeader(userData);
    var p := y.parse(s.body);
    if Prepend(y, userData, cmds) == Ok(text) {
      var d := DocOf(p);
      var d' := d["runcmd" := List(Texts(cmds) + RunCmd(d).items)];
      PrintedIsInFront(d, cmds);
      HeaderLine(s.prefix, y.print_(d').text);
      assert StandsFor(y, s.body, d) && InFront(d, d', cmds);
    }
    if Yields(y, s.prefix, s.body, cmds, text) {
      var d, d' :| StandsFor(y, s.body, d) && InFront(d, d', cmds) && y.print_(d').Printed? && text == s.prefix + "#cloud-config\n" + y.print_(d').text;
      HasItsCommands(d, d', cmds);
      PrintedIsInFront(d, cmds);
      InFrontIsUnique(d, d', d["runcmd" := List(Texts(cmds) + RunCmd(d).items)], cmds);
      HeaderLine(s.prefix, y.print_(d').text);
    }
  }

  lemma HeaderLine(prefix: string, body: string)
    ensures prefix + HEADER + "\n" + body == prefix + "#cloud-config\n" + body
  {
  }

  lemma HasItsCommands(d: Doc, d': Doc, cmds: seq<string>)
    requires InFront(d, d', cmds)
    ensures RunCmd(d).Commands?
  {
  }

  /** The same in terms of the functions that compute it. */
  lemma PrependPrints(y: Yaml, userData: string, cmds: seq<string>)
    requires Lawful(y) && cmds != [] && Prepend(y, userData, cmds).Ok?
    requires SplitHeader(userData).CloudConfig? && SplitHeader(userData).body != ""
    ensures var old_ := SplitHeader(userData);
            var new_ := SplitHeader(Prepend(y, userData, cmds).text);
            && !y.parse(old_.body).ParseError? && RunCmd(DocOf(y.parse(old_.body))).Commands?
            && new_.CloudConfig? && new_.prefix == old_.prefix && new_.body != ""
            && var d := DocOf(y.parse(old_.body));
               y.parse(new_.body) == Parsed(d["runcmd" := List(Texts(cmds) + RunCmd(d).items)])
  {
    hide SplitHeader, IsPrefix, IsHeader, Texts;
    var s := SplitHeader(userData);
    var line := SplitIsExact(userData);
    var d := DocOf(y.parse(s.body));
    var out := y.print_(d["runcmd" := List(Texts(cmds) + RunCmd(d).items)]);
    HeaderIsHeader();
    SplitOfAssembled(s.prefix, HEADER, out.text);
  }

  /**
   Whether the input comes back as it is: under every lawful YAML library exactly if there are no commands or the text
   is not a cloud-config document.
   */
  lemma OthersPassThrough(y: Yaml, userData: string, cmds: seq<string>)
    ensures cmds == [] || !IsCloudConfig(userData) ==> Prepend(y, userData, cmds) == Ok(userData)
    ensures Lawful(y) ==> (Prepend(y, userData, cmds) == Ok(userData) <==> cmds == [] || !IsCloudConfig(userData))
  {
    hide SplitHeader, IsCloudConfig;
    BodyIffCloudConfig(userData);
    if Lawful(y) && cmds != [] && IsCloudConfig(userData) && Prepend(y, userData, cmds).Ok? {
      PrependPrints(y, userData, cmds);
      var d := DocOf(y.parse(SplitHeader(userData).body));
      var longer := d["runcmd" := List(Texts(cmds) + RunCmd(d).items)];
      assert RunCmd(longer).items == Texts(cmds) + RunCmd(d).items;
      assert |RunCmd(longer).items| > |RunCmd(d).items|;
    }
  }

  /** Prepending composes: first b, then a, is a ++ b at once. */
  lemma PrependComposes(y: Yaml, userData: string, a: seq<string>, b: seq<string>)
    requires Lawful(y) && Prepend(y, userData, b).Ok?
    ensures Prepend(y, Prepend(y, userData, b).text, a) == Prepend(y, userData, a + b)
  {
    hide SplitHeader;
    assert a == [] ==> a + b == b;
    assert b == [] ==> a + b == a;
    if a == [] || b == [] || AsPair(SplitHeader(userData)).1 == "" {
      return;
    }
    PrependPrints(y, userData, b);
    var s := SplitHeader(userData);
    var d := DocOf(y.parse(s.body));
    var items := RunCmd(d).items;
    var db := d["runcmd" := List(Texts(b) + items)];
    assert RunCmd(db) == Commands(Texts(b) + items);
    assert Texts(a) + (Texts(b) + items) == Texts(a + b) + items;
    assert db["runcmd" := List(Texts(a) + (Texts(b) + items))] == d["runcmd" := List(Texts(a + b) + items)];
  }
}
