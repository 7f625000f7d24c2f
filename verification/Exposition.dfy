/** The Prometheus text exposition format: what the program prints, and a reader
    of that format to judge it by.

    The reader follows the sections "Line format" and "Comments, help text, and
    type information" of "Exposition formats". It is stricter than they are in two
    places the printer never reaches: no blanks inside the braces, no timestamps. */
module Exposition {
  import opened Text

  const PREFIX := "kube_customresource_"
  const GAUGE := "gauge"

  datatype Label = Label(name: string, value: string)

  /** One metric that survived rendering. `token` is its printed value. */
  datatype Sample = Sample(
    family: string, labels: seq<Label>,
    group: string, version: string, kind: string, token: string)

  /** What a reader finds in a document, in order. */
  datatype Item =
    | Help(name: string, text: string)
    | Type(name: string, kind: string)
    | Point(name: string, labels: seq<Label>, value: string)

  // ---- The printer ----

  function EscapeChar(c: char): string {
    if c == '\\' then "\\\\" else if c == '\n' then "\\n" else if c == '"' then "\\\"" else [c]
  }

  function Escape(s: string): string {
    if s == "" then "" else EscapeChar(s[0]) + Escape(s[1..])
  }

  function RenderLabel(l: Label): string {
    l.name + "=\"" + Escape(l.value) + "\""
  }

  /** The first label follows `separator`, every later one a comma. */
  function RenderLabels(ls: seq<Label>, separator: string): string {
    if ls == [] then "" else separator + RenderLabel(ls[0]) + RenderLabels(ls[1..], ",")
  }

  /** The object's group, version and kind follow the sorted labels. */
  function WithIdentity(ls: seq<Label>, g: string, v: string, k: string): seq<Label> {
    ls + [Label("group", g), Label("version", v), Label("kind", k)]
  }

  function AllLabels(s: Sample): seq<Label> {
    WithIdentity(s.labels, s.group, s.version, s.kind)
  }

  function RenderBody(ls: seq<Label>): string {
    RenderLabels(ls, "{") + "} "
  }

  function SampleLine(s: Sample): string {
    PREFIX + s.family + RenderBody(AllLabels(s)) + s.token
  }

  function RenderSample(s: Sample): string {
    SampleLine(s) + "\n"
  }

  function Comment(keyword: string, name: string, rest: string): string {
    " " + keyword + " " + name + rest
  }

  function HelpLine(name: string, help: string): string {
    "#" + Comment("HELP", PREFIX + name, " " + help)
  }

  function TypeLine(name: string): string {
    "#" + Comment("TYPE", PREFIX + name, " " + GAUGE)
  }

  function RenderHeader(name: string, help: string): string {
    HelpLine(name, help) + "\n" + TypeLine(name)
  }

  lemma HelpSpelled()
    ensures "# HELP " + PREFIX == "# HELP kube_customresource_"
    ensures "#" + (" " + "HELP" + " ") + PREFIX == "# HELP " + PREFIX
  {
    assert "#" + (" " + "HELP" + " ") == "# HELP ";
  }

  lemma TypeSpelled()
    ensures "# TYPE " + PREFIX == "# TYPE kube_customresource_"
    ensures "#" + (" " + "TYPE" + " ") + PREFIX == "# TYPE " + PREFIX
    ensures " " + GAUGE == " gauge"
  {
    assert "#" + (" " + "TYPE" + " ") == "# TYPE ";
  }

  lemma Spelled(a: string, b: string, c: string, d: string, e: string, f: string)
    ensures a + (b + (c + d) + (e + f)) == ((a + b) + c) + d + e + f
    ensures a + (b + (c + d) + (e + f)) == ((a + b) + c) + d + (e + f)
  {
  }

  /** Both header lines as they are read. */
  lemma HeaderLines(name: string, help: string)
    ensures RenderHeader(name, help)
         == "# HELP kube_customresource_" + name + " " + help + "\n" + ("# TYPE kube_customresource_" + name + " gauge")
  {
    HelpSpelled();
    TypeSpelled();
    Spelled("#", " " + "HELP" + " ", PREFIX, name, " ", help);
    Spelled("#", " " + "TYPE" + " ", PREFIX, name, " ", GAUGE);
  }

  /** And as they are built. */
  lemma HeaderPieces(name: string, help: string)
    ensures "# HELP " + PREFIX + name + " " + help + "\n" + "# TYPE " + PREFIX + name + " " + GAUGE
         == RenderHeader(name, help)
  {
    HelpSpelled();
    TypeSpelled();
    HeaderLines(name, help);
    Tailed("# HELP " + PREFIX + name + " " + help + "\n", "# TYPE ", PREFIX, name, " ", GAUGE);
  }

  lemma Tailed(a: string, b: string, c: string, d: string, e: string, f: string)
    ensures a + b + c + d + e + f == a + ((b + c) + d + (e + f))
  {
  }

  function PointOf(s: Sample): Item {
    Point(PREFIX + s.family, AllLabels(s), s.token)
  }

  // ---- The reader: characters and tokens ----

  predicate IsBlank(c: char) {
    c == ' ' || c == '\t'
  }

  predicate IsNameChar(c: char) {
    IsWord(c) || c == ':'
  }

  predicate NotBlank(c: char) {
    !IsBlank(c)
  }

  predicate NotNewline(c: char) {
    c != '\n'
  }

  predicate ValidMetricName(s: string) {
    s != "" && !IsDigit(s[0]) && forall i :: 0 <= i < |s| ==> IsNameChar(s[i])
  }

  predicate ValidLabelName(s: string) {
    s != "" && !IsDigit(s[0]) && forall i :: 0 <= i < |s| ==> IsWord(s[i])
  }

  predicate IsToken(s: string) {
    s != "" && forall i :: 0 <= i < |s| ==> NotBlank(s[i]) && NotNewline(s[i])
  }

  /** The length of the longest prefix whose characters all satisfy `p`. */
  function Run(s: string, p: char -> bool): (n: nat)
    ensures n <= |s|
    ensures forall i :: 0 <= i < n ==> p(s[i])
    ensures n < |s| ==> !p(s[n])
  {
    if s == "" || !p(s[0]) then 0 else 1 + Run(s[1..], p)
  }

  function SkipBlanks(s: string): string {
    s[Run(s, IsBlank)..]
  }

  function TrimRight(s: string): (r: string)
    ensures r <= s
    ensures r != "" ==> NotBlank(r[|r| - 1])
  {
    if s == "" || NotBlank(s[|s| - 1]) then s else TrimRight(s[..|s| - 1])
  }

  /** The next blank-delimited token and what follows it. */
  function NextToken(s: string): (string, string) {
    var t := SkipBlanks(s);
    var n := Run(t, NotBlank);
    (t[..n], t[n..])
  }

  // ---- The reader: samples ----

  /** Reads a quoted value after its opening quote. */
  function ScanQuoted(s: string): (r: Option<(string, string)>)
    ensures r.Some? ==> |r.value.1| < |s|
  {
    if s == "" || s[0] == '\n' then None
    else if s[0] == '"' then Some(("", s[1..]))
    else if s[0] != '\\' then
      match ScanQuoted(s[1..])
      case None => None
      case Some((v, rest)) => Some(([s[0]] + v, rest))
    else if |s| == 1 || s[1] !in {'\\', 'n', '"'} then None
    else
      match ScanQuoted(s[2..])
      case None => None
      case Some((v, rest)) => Some(([if s[1] == 'n' then '\n' else s[1]] + v, rest))
  }

  /** Reads labels after the opening brace, without judging their names. */
  function ScanLabels(s: string): (r: Option<(seq<Label>, string)>)
    ensures r.Some? ==> |r.value.1| < |s|
    decreases |s|
  {
    if s != "" && s[0] == '}' then Some(([], s[1..]))
    else
      var n := Run(s, IsWord);
      if |s| < n + 2 || s[n] != '=' || s[n + 1] != '"' then None
      else
        match ScanQuoted(s[n + 2..])
        case None => None
        case Some((v, rest)) =>
          var l := Label(s[..n], v);
          if rest == "" then None
          else if rest[0] == '}' then Some(([l], rest[1..]))
          else if rest[0] != ',' then None
          else
            match ScanLabels(rest[1..])
            case None => None
            case Some((ls, tail)) => Some(([l] + ls, tail))
  }

  /** Reads a sample line without judging its names. */
  function ScanPoint(line: string): Option<Item> {
    var n := Run(line, IsNameChar);
    var rest := line[n..];
    var body := if rest != "" && rest[0] == '{' then ScanLabels(rest[1..]) else Some(([], rest));
    if body.None? then None
    else
      var (labels, tail) := body.value;
      var value := SkipBlanks(tail);
      if tail != "" && IsBlank(tail[0]) && IsToken(value) then Some(Point(line[..n], labels, value))
      else None
  }

  predicate ValidLabels(ls: seq<Label>) {
    forall i :: 0 <= i < |ls| ==> ValidLabelName(ls[i].name)
  }

  function ParsePoint(line: string): Option<seq<Item>> {
    match ScanPoint(line)
    case None => None
    case Some(p) =>
      if p.Point? && ValidMetricName(p.name) && ValidLabels(p.labels) then Some([p]) else None
  }

  // ---- The reader: comments ----

  /** In a docstring a backslash must introduce `\\` or `\n`. */
  function Unescape(s: string): Option<string> {
    if s == "" then Some("")
    else if s[0] != '\\' then
      match Unescape(s[1..]) case None => None case Some(r) => Some([s[0]] + r)
    else if |s| == 1 || s[1] !in {'\\', 'n'} then None
    else
      match Unescape(s[2..])
      case None => None
      case Some(r) => Some([if s[1] == 'n' then '\n' else '\\'] + r)
  }

  predicate IsKind(kind: string) {
    kind in {"counter", GAUGE, "histogram", "summary", "untyped"}
  }

  function ReadHelp(s: string): Option<seq<Item>> {
    var (name, rest) := NextToken(s);
    if !ValidMetricName(name) then None
    else match Unescape(SkipBlanks(rest)) case None => None case Some(t) => Some([Help(name, t)])
  }

  function ReadType(s: string): Option<seq<Item>> {
    var (name, rest) := NextToken(s);
    var (kind, tail) := NextToken(rest);
    if ValidMetricName(name) && IsKind(kind) && SkipBlanks(tail) == "" then Some([Type(name, kind)]) else None
  }

  /** Only HELP and TYPE comments mean anything. */
  function ReadComment(keyword: string, s: string): Option<seq<Item>> {
    if keyword == "HELP" then ReadHelp(s) else if keyword == "TYPE" then ReadType(s) else Some([])
  }

  /** Reads a comment after its hash. */
  function ParseComment(s: string): Option<seq<Item>> {
    var (keyword, rest) := NextToken(s);
    ReadComment(keyword, rest)
  }

  /** Surrounding blanks and empty lines are ignored. */
  function ParseLine(line: string): Option<seq<Item>> {
    var l := TrimRight(SkipBlanks(line));
    if l == "" then Some([]) else if l[0] == '#' then ParseComment(l[1..]) else ParsePoint(l)
  }

  function Append(first: Option<seq<Item>>, second: Option<seq<Item>>): Option<seq<Item>> {
    if first.Some? && second.Some? then Some(first.value + second.value) else None
  }

  /** Every line ends with a line feed, the last one included. */
  function ParseDocument(text: string): Option<seq<Item>>
    decreases |text|
  {
    if text == "" then Some([])
    else
      var n := Run(text, NotNewline);
      if n == |text| then None else Append(ParseLine(text[..n]), ParseDocument(text[n + 1..]))
  }

  // ---- Lines ----

  lemma {:induction false} RunOf(a: string, b: string, p: char -> bool)
    requires forall i :: 0 <= i < |a| ==> p(a[i])
    requires b == "" || !p(b[0])
    ensures Run(a + b, p) == |a|
  {
    assert forall i :: 0 <= i < |a| ==> (a + b)[i] == a[i];
    assert b != "" ==> (a + b)[|a|] == b[0];
  }

  lemma DocumentLine(line: string, rest: string)
    requires '\n' !in line
    ensures ParseDocument(line + "\n" + rest) == Append(ParseLine(line), ParseDocument(rest))
  {
    var text := line + "\n" + rest;
    assert text == line + ("\n" + rest);
    assert forall i :: 0 <= i < |line| ==> line[i] in line;
    RunOf(line, "\n" + rest, NotNewline);
    assert text[..|line|] == line && text[|line| + 1..] == rest;
  }

  lemma SkipNothing(s: string)
    requires s == "" || NotBlank(s[0])
    ensures SkipBlanks(s) == s
  {
  }

  lemma {:induction false} BareLine(line: string, bare: string)
    requires bare != "" && NotBlank(bare[0]) && line != "" && NotBlank(line[0])
    requires bare == TrimRight(line)
    ensures ParseLine(line) == if bare[0] == '#' then ParseComment(bare[1..]) else ParsePoint(bare)
  {
    SkipNothing(line);
  }

  lemma {:induction false} TrimAppend(a: string, b: string)
    ensures TrimRight(a + b) == if TrimRight(b) == "" then TrimRight(a) else a + TrimRight(b)
  {
    if b == "" {
      assert a + b == a;
    } else if NotBlank(b[|b| - 1]) {
      assert (a + b)[|a + b| - 1] == b[|b| - 1];
    } else {
      TrimAppend(a, b[..|b| - 1]);
      assert (a + b)[..|a + b| - 1] == a + b[..|b| - 1];
      assert (a + b)[|a + b| - 1] == b[|b| - 1];
    }
  }

  // ---- Sample lines ----

  /** No value, whatever it holds, puts a raw line feed into the text. */
  lemma {:induction false} EscapeHasNoNewline(s: string)
    ensures '\n' !in Escape(s)
  {
    if s != "" {
      EscapeHasNoNewline(s[1..]);
    }
  }

  lemma {:induction false} QuotedRoundTrip(v: string, rest: string)
    ensures ScanQuoted(Escape(v) + "\"" + rest) == Some((v, rest))
  {
    var text := Escape(v) + "\"" + rest;
    if v == "" {
      assert text[1..] == rest;
    } else {
      QuotedRoundTrip(v[1..], rest);
      var head, tail := EscapeChar(v[0]), Escape(v[1..]) + "\"" + rest;
      assert text == head + tail;
      assert text[|head|..] == tail;
      assert [v[0]] + v[1..] == v;
    }
  }

  ghost predicate WordLabels(ls: seq<Label>) {
    forall i :: 0 <= i < |ls| ==> AllWord(ls[i].name)
  }

  lemma {:induction false} LabelScan(l: Label, after: string)
    requires AllWord(l.name)
    ensures
      var s := RenderLabel(l) + after;
      var n := Run(s, IsWord);
      && n == |l.name| && s[..n] == l.name && n + 2 <= |s|
      && s != "" && s[0] != '}' && s[n] == '=' && s[n + 1] == '"'
      && ScanQuoted(s[n + 2..]) == Some((l.value, after))
  {
    var s := RenderLabel(l) + after;
    var quoted := Escape(l.value) + "\"" + after;
    var tail := "=\"" + quoted;
    assert tail[0] == '=' && tail[1] == '"' && tail[2..] == quoted;
    assert s == l.name + tail;
    RunOf(l.name, tail, IsWord);
    assert s[|l.name| + 2..] == tail[2..];
    QuotedRoundTrip(l.value, after);
  }

  lemma {:induction false} LabelsScan(s: string, l: Label, after: string)
    requires AllWord(l.name) && s == RenderLabel(l) + after && after != ""
    ensures after[0] == '}' ==> ScanLabels(s) == Some(([l], after[1..]))
    ensures after[0] == ',' && ScanLabels(after[1..]).Some? ==>
              ScanLabels(s) == Some(([l] + ScanLabels(after[1..]).value.0, ScanLabels(after[1..]).value.1))
  {
    LabelScan(l, after);
  }

  lemma {:induction false} LabelsRoundTrip(ls: seq<Label>, rest: string)
    requires ls != [] && WordLabels(ls)
    ensures ScanLabels(RenderLabels(ls, "") + ("}" + rest)) == Some((ls, rest))
  {
    hide ScanLabels;
    hide RenderLabel;
    var l, text := ls[0], RenderLabels(ls, "") + ("}" + rest);
    FirstLabel(ls, "}" + rest);
    if |ls| == 1 {
      LabelsScan(text, l, "}" + rest);
      assert ls == [l];
    } else {
      var next := RenderLabels(ls[1..], "") + ("}" + rest);
      LabelsRoundTrip(ls[1..], rest);
      LabelsScan(text, l, "," + next);
      assert ("," + next)[1..] == next && ls == [l] + ls[1..];
    }
  }

  lemma {:induction false} FirstLabel(ls: seq<Label>, rest: string)
    requires ls != []
    ensures RenderLabels(ls, "") + rest ==
            RenderLabel(ls[0]) + (if |ls| == 1 then rest else "," + (RenderLabels(ls[1..], "") + rest))
  {
    if |ls| > 1 {
      CommaFirst(ls[1..]);
    }
  }

  lemma {:induction false} CommaFirst(ls: seq<Label>)
    requires ls != []
    ensures RenderLabels(ls, ",") == "," + RenderLabels(ls, "")
    ensures RenderLabels(ls, "{") == "{" + RenderLabels(ls, "")
  {
  }

  /** Reading what the label loop prints for the sorted pairs and an object's group,
      version and kind, up to and including the blank. */
  lemma BodyReads(ls: seq<Label>, g: string, v: string, k: string, rest: string)
    requires WordLabels(ls)
    ensures
      var text := RenderBody(WithIdentity(ls, g, v, k)) + rest;
      && text != "" && text[0] == '{'
      && ScanLabels(text[1..]) == Some((ls + [Label("group", g), Label("version", v), Label("kind", k)], " " + rest))
  {
    hide ScanLabels;
    hide RenderLabels;
    var all := ls + [Label("group", g), Label("version", v), Label("kind", k)];
    var text := RenderLabels(all, "") + ("}" + (" " + rest));
    CommaFirst(all);
    assert RenderBody(all) + rest == "{" + text;
    LabelsRoundTrip(all, " " + rest);
  }

  /** What rendering guarantees of a sample, whatever the configuration says. */
  ghost predicate Printable(s: Sample) {
    WordLabels(s.labels) && IsToken(s.token)
  }

  /** What only a careful configuration guarantees. */
  predicate WellNamed(s: Sample) {
    ValidMetricName(PREFIX + s.family) && ValidLabels(s.labels)
  }

  lemma {:induction false} ScanBraced(name: string, ls: seq<Label>, token: string)
    requires ls != [] && WordLabels(ls) && IsToken(token)
    requires forall i :: 0 <= i < |name| ==> IsNameChar(name[i])
    ensures ScanPoint(name + RenderBody(ls) + token) == Some(Point(name, ls, token))
  {
    hide ScanLabels;
    hide RenderLabels;
    var tail := " " + token;
    var braced := RenderLabels(ls, "") + ("}" + tail);
    CommaFirst(ls);
    var line := name + ("{" + braced);
    assert name + RenderBody(ls) + token == line;
    RunOf(name, "{" + braced, IsNameChar);
    assert line[|name|..] == "{" + braced;
    assert ("{" + braced)[1..] == braced;
    LabelsRoundTrip(ls, tail);
    BlankFirst(token);
    SkipNothing(token);
  }

  lemma {:induction false} ScanSampleLine(s: Sample)
    requires Printable(s)
    requires forall i :: 0 <= i < |s.family| ==> IsNameChar(s.family[i])
    ensures ScanPoint(SampleLine(s)) == Some(PointOf(s))
    ensures ParsePoint(SampleLine(s)) == if WellNamed(s) then Some([PointOf(s)]) else None
  {
    ValidPoint(s);
    PrefixedName(s.family);
    assert WordLabels(AllLabels(s));
    ScanBraced(PREFIX + s.family, AllLabels(s), s.token);
  }

  lemma {:induction false} SampleLineEnds(s: Sample)
    requires IsToken(s.token)
    ensures
      var line := SampleLine(s);
      && line != "" && NotBlank(line[0]) && line[0] != '#' && NotBlank(line[|line| - 1])
      && TrimRight(line) == line
  {
    var line := SampleLine(s);
    assert line[0] == 'k' && line[|line| - 1] == s.token[|s.token| - 1];
  }

  predicate NameChars(s: string) {
    forall i :: 0 <= i < |s| ==> IsNameChar(s[i])
  }

  /** Reading a printed line gives back the sorted labels, then group, version and
      kind, and the value token; it does so exactly when the family's name and
      every label name is one the format allows. A bad label name makes the reader
      reject the line. */
  lemma {:induction false} SampleRoundTrip(s: Sample)
    requires Printable(s)
    ensures ParseLine(SampleLine(s)) == Some([PointOf(s)]) <==> WellNamed(s)
    ensures !WellNamed(s) && NameChars(s.family) ==> ParseLine(SampleLine(s)) == None
    ensures WellNamed(s) ==>
              ParseLine(SampleLine(s)) == Some([
                Point("kube_customresource_" + s.family,
                      s.labels + [Label("group", s.group), Label("version", s.version), Label("kind", s.kind)],
                      s.token)])
  {
    var line := SampleLine(s);
    PrefixedName(s.family);
    if NameChars(s.family) {
      ScanSampleLine(s);
      SampleLineEnds(s);
      BareLine(line, line);
    } else if ParseLine(line) == Some([PointOf(s)]) {
      LineItemsAreValid(line);
      ValidPoint(s);
      assert false;
    }
  }

  /** Two different samples of one family never print the same line, nor do samples
      of different families whose names are made of name characters. */
  lemma SampleLineInjective(s: Sample, t: Sample)
    requires Printable(s) && Printable(t)
    requires s.family == t.family || (NameChars(s.family) && NameChars(t.family))
    requires SampleLine(s) == SampleLine(t)
    ensures s == t
  {
    hide RenderBody;
    hide NameChars;
    if NameChars(s.family) {
      ScansInjective(s, t);
    } else {
      NoNameChars();
      var body, body' := RenderBody(AllLabels(s)) + s.token, RenderBody(AllLabels(t)) + t.token;
      assert SampleLine(s) == (PREFIX + s.family) + body && SampleLine(t) == (PREFIX + s.family) + body';
      assert body == body' by {
        CutStart(PREFIX + s.family, body, body');
      }
      var u, v := s.(family := ""), t.(family := "");
      assert SampleLine(u) == PREFIX + "" + body && SampleLine(v) == PREFIX + "" + body';
      ScansInjective(u, v);
    }
  }

  lemma NoNameChars()
    ensures NameChars("")
  {
  }

  lemma CutStart(start: string, a: string, b: string)
    ensures start + a == start + b ==> a == b
  {
    if start + a == start + b {
      assert (start + a)[|start|..] == a && (start + b)[|start|..] == b;
    }
  }

  lemma ScansInjective(s: Sample, t: Sample)
    requires Printable(s) && Printable(t) && NameChars(s.family) && NameChars(t.family)
    requires SampleLine(s) == SampleLine(t)
    ensures s == t
  {
    ScanSampleLine(s);
    ScanSampleLine(t);
    assert (PREFIX + s.family)[|PREFIX|..] == s.family && (PREFIX + t.family)[|PREFIX|..] == t.family;
    var a, b := AllLabels(s), AllLabels(t);
    assert a == b && |s.labels| == |t.labels|;
    assert a[|s.labels|] == b[|s.labels|] && a[|s.labels| + 1] == b[|s.labels| + 1];
    assert a[|s.labels| + 2] == b[|s.labels| + 2];
    assert a[..|s.labels|] == s.labels && b[..|s.labels|] == t.labels;
  }

  // ---- Header lines ----

  /** The help texts that survive: one line, no backslash, no outer blanks. */
  predicate PlainHelp(help: string) {
    && '\n' !in help && '\\' !in help
    && (help != "" ==> NotBlank(help[0]) && NotBlank(help[|help| - 1]))
  }

  function Clean(help: string): string {
    SkipBlanks(TrimRight(help))
  }

  lemma {:induction false} UnescapeLength(s: string)
    ensures Unescape(s).Some? ==> |Unescape(s).value| <= |s|
    ensures Unescape(s) == Some(s) <==> '\\' !in s
    ensures Unescape(s).Some? && |Unescape(s).value| == |s| ==> Unescape(s) == Some(s)
  {
    if s != "" {
      UnescapeLength(s[1..]);
      assert s == [s[0]] + s[1..];
      if |s| > 1 {
        UnescapeLength(s[2..]);
      }
    }
  }

  lemma {:induction false} SpacedToken(token: string, rest: string)
    requires IsToken(token)
    requires rest == "" || IsBlank(rest[0])
    ensures NextToken(" " + token + rest) == (token, rest)
  {
    assert " " + token + rest == " " + (token + rest);
    BlankFirst(token + rest);
    SkipNothing(token + rest);
    RunOf(token, rest, NotBlank);
  }

  lemma {:induction false} CommentReads(keyword: string, name: string, rest: string)
    requires IsToken(keyword) && IsToken(name)
    requires rest == "" || IsBlank(rest[0])
    ensures ParseComment(Comment(keyword, name, rest)) == ReadComment(keyword, " " + name + rest)
  {
    SpacedToken(keyword, " " + name + rest);
    assert Comment(keyword, name, rest) == " " + keyword + (" " + name + rest);
  }

  lemma PrefixedName(name: string)
    ensures ValidMetricName(PREFIX + name) <==> forall i :: 0 <= i < |name| ==> IsNameChar(name[i])
    ensures ValidMetricName(PREFIX + name) ==> IsToken(PREFIX + name)
  {
    var full := PREFIX + name;
    assert forall i :: 0 <= i < |PREFIX| ==> IsNameChar(PREFIX[i]);
    assert forall i :: 0 <= i < |name| ==> full[|PREFIX| + i] == name[i];
  }

  lemma {:induction false} TrimHelpLine(start: string, help: string)
    requires start != "" && NotBlank(start[|start| - 1])
    ensures TrimRight(start + (" " + help)) ==
            start + (if TrimRight(help) == "" then "" else " " + TrimRight(help))
  {
    TrimAppend(start, " " + help);
    TrimAppend(" ", help);
    assert TrimRight(" ") == TrimRight("") == "";
    assert start + "" == start;
  }

  lemma {:induction false} HelpReads(name: string, rest: string)
    requires ValidMetricName(name) && IsToken(name)
    requires rest == "" || IsBlank(rest[0])
    ensures ReadHelp(" " + name + rest) ==
            match Unescape(SkipBlanks(rest)) case None => None case Some(t) => Some([Help(name, t)])
  {
    SpacedToken(name, rest);
  }

  lemma {:induction false} CommentLineReads(keyword: string, name: string, text: string)
    requires IsToken(keyword) && IsToken(name)
    ensures
      var rest := if TrimRight(text) == "" then "" else " " + TrimRight(text);
      ParseLine("#" + Comment(keyword, name, " " + text)) == ReadComment(keyword, " " + name + rest)
  {
    var rest := if TrimRight(text) == "" then "" else " " + TrimRight(text);
    CommentReads(keyword, name, rest);
    CommentSplits(keyword, name, rest);
    CommentSplits(keyword, name, " " + text);
    TrimmedComment("#" + Comment(keyword, name, ""), text);
  }

  lemma {:induction false} HelpLineParses(name: string, help: string)
    requires ValidMetricName(PREFIX + name)
    ensures ParseLine(HelpLine(name, help)) ==
            match Unescape(Clean(help)) case None => None case Some(t) => Some([Help(PREFIX + name, t)])
  {
    PrefixedName(name);
    var kept := TrimRight(help);
    CommentLineReads("HELP", PREFIX + name, help);
    HelpReads(PREFIX + name, if kept == "" then "" else " " + kept);
    BlankFirst(kept);
  }

  lemma {:induction false} TrimmedComment(start: string, text: string)
    requires start != "" && start[0] == '#' && NotBlank(start[|start| - 1])
    ensures
      var rest := if TrimRight(text) == "" then "" else " " + TrimRight(text);
      ParseLine(start + (" " + text)) == ParseComment(start[1..] + rest)
  {
    var rest := if TrimRight(text) == "" then "" else " " + TrimRight(text);
    TrimHelpLine(start, text);
    assert (start + rest)[1..] == start[1..] + rest;
    BareLine(start + (" " + text), start + rest);
  }

  lemma CommentSplits(keyword: string, name: string, rest: string)
    ensures Comment(keyword, name, rest) == Comment(keyword, name, "") + rest
    ensures "#" + Comment(keyword, name, rest) == "#" + Comment(keyword, name, "") + rest
    ensures ("#" + Comment(keyword, name, ""))[1..] == Comment(keyword, name, "")
    ensures IsToken(name) ==> NotBlank(("#" + Comment(keyword, name, ""))[|Comment(keyword, name, "")|])
  {
  }

  lemma {:induction false} BlankFirst(s: string)
    ensures SkipBlanks(" " + s) == SkipBlanks(s)
  {
    assert (" " + s)[1..] == s;
  }

  lemma {:induction false} TypeReads(name: string, kind: string)
    requires ValidMetricName(name) && IsToken(name)
    requires IsToken(kind) && IsKind(kind)
    ensures ReadType(" " + name + (" " + kind)) == Some([Type(name, kind)])
  {
    SpacedToken(name, " " + kind);
    LastToken(kind);
    assert SkipBlanks("") == "";
  }

  lemma {:induction false} LastToken(token: string)
    requires IsToken(token)
    ensures NextToken(" " + token) == (token, "")
  {
    assert " " + token == " " + token + "";
    SpacedToken(token, "");
  }

  lemma {:induction false} TypeLineReads(name: string, kind: string)
    requires ValidMetricName(name) && IsToken(name)
    requires IsToken(kind) && IsKind(kind)
    ensures ParseLine("#" + Comment("TYPE", name, " " + kind)) == Some([Type(name, kind)])
  {
    CommentLineReads("TYPE", name, kind);
    TypeReads(name, kind);
  }

  lemma {:induction false} TypeLineParses(name: string)
    requires ValidMetricName(PREFIX + name)
    ensures ParseLine(TypeLine(name)) == Some([Type(PREFIX + name, GAUGE)])
  {
    PrefixedName(name);
    TypeLineReads(PREFIX + name, GAUGE);
  }

  lemma CleanLength(help: string)
    ensures |Clean(help)| <= |help|
    ensures |Clean(help)| == |help| ==> Clean(help) == help
    ensures Clean(help) == help <==> help == "" || (NotBlank(help[0]) && NotBlank(help[|help| - 1]))
  {
  }

  // ---- Documents ----

  /** Names in anything that was read are names the format allows. */
  ghost predicate ValidItem(it: Item) {
    ValidMetricName(it.name) && (it.Point? ==> ValidLabels(it.labels))
  }

  lemma {:induction false} LineItemsAreValid(line: string)
    ensures ParseLine(line).Some? ==>
              forall k :: 0 <= k < |ParseLine(line).value| ==> ValidItem(ParseLine(line).value[k])
  {
    var l := TrimRight(SkipBlanks(line));
    if l != "" && l[0] == '#' {
      CommentItemsAreValid(l[1..]);
    }
  }

  lemma {:induction false} CommentItemsAreValid(s: string)
    ensures ParseComment(s).Some? ==>
              forall k :: 0 <= k < |ParseComment(s).value| ==> ValidItem(ParseComment(s).value[k])
  {
    var (keyword, rest) := NextToken(s);
    ReadItemsAreValid(keyword, rest);
  }

  lemma {:induction false} ReadItemsAreValid(keyword: string, s: string)
    ensures ReadComment(keyword, s).Some? ==>
              forall k :: 0 <= k < |ReadComment(keyword, s).value| ==> ValidItem(ReadComment(keyword, s).value[k])
  {
    HelpItemsAreValid(s);
    TypeItemsAreValid(s);
  }

  lemma {:induction false} HelpItemsAreValid(s: string)
    ensures ReadHelp(s).Some? ==> |ReadHelp(s).value| == 1 && ValidItem(ReadHelp(s).value[0])
  {
  }

  lemma {:induction false} TypeItemsAreValid(s: string)
    ensures ReadType(s).Some? ==> |ReadType(s).value| == 1 && ValidItem(ReadType(s).value[0])
  {
  }

  lemma {:induction false} ParsedItemsAreValid(text: string, k: nat)
    requires ParseDocument(text).Some? && k < |ParseDocument(text).value|
    ensures ValidItem(ParseDocument(text).value[k])
    decreases |text|
  {
    hide ParseLine;
    hide ValidItem;
    var n := Run(text, NotNewline);
    var first := ParseLine(text[..n]).value;
    LineItemsAreValid(text[..n]);
    if k >= |first| {
      ParsedItemsAreValid(text[n + 1..], k - |first|);
    }
  }

  /** A sample line inside a document: read back exactly when well named. */
  lemma {:induction false} SampleInDocument(s: Sample, rest: string, items: seq<Item>)
    requires Printable(s)
    ensures ParseDocument(RenderSample(s) + rest) == Some([PointOf(s)] + items)
       <==> WellNamed(s) && ParseDocument(rest) == Some(items)
  {
    var text := RenderSample(s) + rest;
    PrefixedName(s.family);
    if WellNamed(s) {
      SampleHasNoNewline(s);
      SampleRoundTrip(s);
      assert text == SampleLine(s) + "\n" + rest;
      DocumentLine(SampleLine(s), rest);
      if ParseDocument(rest).Some? {
        Cancel([PointOf(s)], ParseDocument(rest).value, items);
      }
    } else if ParseDocument(text) == Some([PointOf(s)] + items) {
      ParsedItemsAreValid(text, 0);
      ValidPoint(s);
      assert false;
    }
  }

  lemma ValidPoint(s: Sample)
    ensures ValidItem(PointOf(s)) <==> WellNamed(s)
  {
    assert forall i :: 0 <= i < |s.labels| ==> AllLabels(s)[i] == s.labels[i];
    assert ValidLabelName("group") && ValidLabelName("version") && ValidLabelName("kind");
  }

  lemma Cancel(first: seq<Item>, a: seq<Item>, b: seq<Item>)
    ensures first + a == first + b <==> a == b
  {
    if first + a == first + b {
      assert (first + a)[|first|..] == a && (first + b)[|first|..] == b;
    }
  }

  lemma {:induction false} LabelsHaveNoNewline(ls: seq<Label>, separator: string)
    requires WordLabels(ls) && '\n' !in separator
    ensures '\n' !in RenderLabels(ls, separator)
  {
    if ls != [] {
      LabelsHaveNoNewline(ls[1..], ",");
      EscapeHasNoNewline(ls[0].value);
      assert '\n' !in ls[0].name;
    }
  }

  /** A printed sample is one line: no value, name or object can break it. */
  lemma SampleHasNoNewline(s: Sample)
    requires Printable(s) && '\n' !in s.family
    ensures '\n' !in SampleLine(s)
  {
    assert WordLabels(AllLabels(s));
    LabelsHaveNoNewline(AllLabels(s), "{");
    assert '\n' !in s.token && '\n' !in PREFIX;
    assert '\n' !in PREFIX + s.family;
  }

  lemma Regroup(a: string, b: string, c: string)
    ensures (a + "\n" + b) + "\n" + c == a + "\n" + (b + "\n" + c)
  {
  }

  lemma {:induction false} HeaderLinesHaveNoNewline(name: string, help: string)
    requires ValidMetricName(PREFIX + name) && '\n' !in help
    ensures '\n' !in HelpLine(name, help) && '\n' !in TypeLine(name)
  {
    var full := PREFIX + name;
    assert '\n' !in full;
    assert '\n' !in Comment("HELP", full, " " + help);
    assert '\n' !in Comment("TYPE", full, " " + GAUGE);
  }

  lemma {:induction false} PlainHeader(name: string, help: string, rest: string)
    requires ValidMetricName(PREFIX + name) && PlainHelp(help)
    ensures ParseDocument(RenderHeader(name, help) + "\n" + rest) ==
            Append(Some([Help(PREFIX + name, help)]),
                   Append(Some([Type(PREFIX + name, GAUGE)]), ParseDocument(rest)))
  {
    HeaderLinesHaveNoNewline(name, help);
    var first, second := HelpLine(name, help), TypeLine(name);
    Regroup(first, second, rest);
    DocumentLine(first, second + "\n" + rest);
    DocumentLine(second, rest);
    HelpLineParses(name, help);
    CleanLength(help);
    UnescapeLength(help);
    TypeLineParses(name);
  }

  /** Where the help text breaks, so does the line. */
  lemma {:induction false} FirstLine(start: string, help: string, rest: string) returns (after: string)
    ensures (start + help) + "\n" + rest == (start + help[..Run(help, NotNewline)]) + "\n" + after
  {
    var n := Run(help, NotNewline);
    if n == |help| {
      after := rest;
      assert help[..n] == help;
    } else {
      after := help[n + 1..] + "\n" + rest;
      assert help == help[..n] + "\n" + help[n + 1..];
    }
  }

  /** Whatever the rest of the document, the first thing read is what the help
      text's first line shows. */
  lemma {:induction false} FirstHelp(name: string, help: string, rest: string)
    requires ValidMetricName(PREFIX + name)
    requires ParseDocument(RenderHeader(name, help) + "\n" + rest).Some?
    ensures
      var shown := help[..Run(help, NotNewline)];
      var items := ParseDocument(RenderHeader(name, help) + "\n" + rest).value;
      Unescape(Clean(shown)).Some? && items != [] && items[0] == Help(PREFIX + name, Unescape(Clean(shown)).value)
  {
    var shown := help[..Run(help, NotNewline)];
    var second := TypeLine(name) + "\n" + rest;
    Regroup(HelpLine(name, help), TypeLine(name), rest);
    HelpLineSplits(name, help);
    HelpLineSplits(name, shown);
    var after := FirstLine(HelpStart(name), help, second);
    HeaderLinesHaveNoNewline(name, shown);
    DocumentLine(HelpLine(name, shown), after);
    HelpLineParses(name, shown);
  }

  function HelpStart(name: string): string {
    "#" + Comment("HELP", PREFIX + name, " ")
  }

  lemma HelpLineSplits(name: string, help: string)
    ensures HelpLine(name, help) == HelpStart(name) + help
  {
  }

  lemma {:induction false} CleanSurvives(shown: string, help: string)
    requires shown <= help && Unescape(Clean(shown)) == Some(help)
    ensures shown == help && Clean(help) == help && '\\' !in help
  {
    UnescapeLength(Clean(shown));
    CleanLength(shown);
    assert |shown| == |help|;
  }

  lemma {:induction false} OnlyPlainHelpSurvives(help: string)
    requires Unescape(Clean(help[..Run(help, NotNewline)])) == Some(help)
    ensures PlainHelp(help)
  {
    var n := Run(help, NotNewline);
    CleanSurvives(help[..n], help);
    CleanLength(help);
    assert n == |help|;
  }

  /** A header inside a document: both lines are read back, help text included,
      exactly when the family's name is valid and its help text plain. */
  lemma {:induction false} HeaderInDocument(name: string, help: string, rest: string, items: seq<Item>)
    ensures ParseDocument(RenderHeader(name, help) + "\n" + rest)
         == Some([Help(PREFIX + name, help), Type(PREFIX + name, GAUGE)] + items)
       <==> ValidMetricName(PREFIX + name) && PlainHelp(help) && ParseDocument(rest) == Some(items)
  {
    var text := RenderHeader(name, help) + "\n" + rest;
    var two := [Help(PREFIX + name, help), Type(PREFIX + name, GAUGE)];
    if ValidMetricName(PREFIX + name) && PlainHelp(help) {
      PlainHeader(name, help, rest);
      AppendTwo(two[0], two[1], ParseDocument(rest), items);
    } else if ParseDocument(text) == Some(two + items) {
      assert (two + items)[0] == two[0];
      ParsedItemsAreValid(text, 0);
      FirstHelp(name, help, rest);
      OnlyPlainHelpSurvives(help);
      assert false;
    }
  }

  lemma AppendTwo(a: Item, b: Item, rest: Option<seq<Item>>, items: seq<Item>)
    ensures Append(Some([a]), Append(Some([b]), rest)) == Some([a, b] + items) <==> rest == Some(items)
  {
    if rest.Some? {
      assert [a] + ([b] + rest.value) == [a, b] + rest.value;
      Cancel([a, b], rest.value, items);
    }
  }
}
