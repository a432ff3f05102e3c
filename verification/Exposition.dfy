/** The Prometheus text exposition format 0.0.4 as the journal scanner writes it, and a reader for that format. */
module Exposition {

  // ---- Escaping a label value ----

  /** str.replace of one character. */
  function Replace(s: string, c: char, put: string): string {
    if s == "" then "" else (if s[0] == c then put else [s[0]]) + Replace(s[1..], c, put)
  }

  /** Three replacements in a row. */
  function Escape(s: string): string {
    Replace(Replace(Replace(s, '\\', "\\\\"), '"', "\\\""), '\n', "\\n")
  }

  function EscapeChar(c: char): string {
    if c == '\\' then "\\\\" else if c == '"' then "\\\"" else if c == '\n' then "\\n" else [c]
  }

  function EscapeEach(s: string): string {
    if s == "" then "" else EscapeChar(s[0]) + EscapeEach(s[1..])
  }

  lemma {:induction false} ReplaceConcat(s: string, t: string, c: char, put: string)
    ensures Replace(s + t, c, put) == Replace(s, c, put) + Replace(t, c, put)
  {
    if s == "" {
      assert s + t == t;
    } else {
      assert (s + t)[1..] == s[1..] + t;
      ReplaceConcat(s[1..], t, c, put);
    }
  }

  lemma ReplaceOne(a: char, c: char, put: string)
    ensures Replace([a], c, put) == if a == c then put else [a]
  {
  }

  lemma ReplaceTwo(a: char, b: char, c: char, put: string)
    requires a != c && b != c
    ensures Replace([a, b], c, put) == [a, b]
  {
    assert [a, b][1..] == [b];
    ReplaceOne(b, c, put);
  }

  /** The order of the replacements is right: no replacement touches what an earlier one wrote, so together they map
      each character on its own. */
  lemma {:induction false} EscapeIsPerChar(s: string)
    ensures Escape(s) == EscapeEach(s)
  {
    if s != "" {
      EscapeIsPerChar(s[1..]);
      EscapeHead(s[0]);
      var a := Replace([s[0]], '\\', "\\\\");
      var b := Replace(a, '"', "\\\"");
      var a' := Replace(s[1..], '\\', "\\\\");
      var b' := Replace(a', '"', "\\\"");
      assert s == [s[0]] + s[1..];
      ReplaceConcat([s[0]], s[1..], '\\', "\\\\");
      ReplaceConcat(a, a', '"', "\\\"");
      ReplaceConcat(b, b', '\n', "\\n");
    }
  }

  lemma EscapeHead(c: char)
    ensures Escape([c]) == EscapeChar(c)
  {
    ReplaceOne(c, '\\', "\\\\");
    if c == '\\' {
      ReplaceTwo('\\', '\\', '"', "\\\"");
      ReplaceTwo('\\', '\\', '\n', "\\n");
    } else {
      ReplaceOne(c, '"', "\\\"");
      if c == '"' { ReplaceTwo('\\', '"', '\n', "\\n"); } else { ReplaceOne(c, '\n', "\\n"); }
    }
  }

  /** No raw newline in the output. */
  lemma {:induction false} NoNewline(s: string)
    ensures '\n' !in EscapeEach(s)
  {
    if s != "" { NoNewline(s[1..]); }
  }

  // ---- A reader ----

  datatype Option<+T> = None | Some(value: T)

  datatype Scan<+T> = Scan(got: T, rest: string)

  /** A label value up to its closing quote; an unescaped quote ends it, a raw newline is an error. */
  function ScanValue(s: string): Option<Scan<string>> {
    if s == "" || s[0] == '\n' then None
    else if s[0] == '"' then Some(Scan("", s[1..]))
    else if s[0] == '\\' then
      if |s| < 2 then None
      else
        var c := if s[1] == 'n' then '\n' else s[1];
        if s[1] != 'n' && s[1] != '\\' && s[1] != '"' then None
        else Prepend(c, ScanValue(s[2..]))
    else Prepend(s[0], ScanValue(s[1..]))
  }

  function Prepend(c: char, r: Option<Scan<string>>): Option<Scan<string>> {
    if r.None? then None else Some(Scan([c] + r.value.got, r.value.rest))
  }

  lemma ScanOne(c: char, more: string)
    ensures ScanValue(EscapeChar(c) + more) == Prepend(c, ScanValue(more))
  {
  }

  /** Unescaping inverts escaping, and the closing quote is found where it was put. */
  lemma {:induction false} ScanEscaped(v: string, rest: string)
    ensures ScanValue(EscapeEach(v) + "\"" + rest) == Some(Scan(v, rest))
  {
    if v == "" {
      assert EscapeEach(v) + "\"" + rest == "\"" + rest;
      assert ("\"" + rest)[1..] == rest;
    } else {
      hide EscapeChar, ScanValue;
      ScanEscaped(v[1..], rest);
      ScanOne(v[0], EscapeEach(v[1..]) + "\"" + rest);
      assert EscapeEach(v) + "\"" + rest == EscapeChar(v[0]) + (EscapeEach(v[1..]) + "\"" + rest);
      assert v == [v[0]] + v[1..];
    }
  }

  predicate NameChar(c: char) { 'a' <= c <= 'z' || 'A' <= c <= 'Z' || '0' <= c <= '9' || c == '_' || c == ':' }

  predicate IsName(s: string) { s != "" && forall i | 0 <= i < |s| :: NameChar(s[i]) }

  function NameLength(s: string): (n: nat)
    ensures n <= |s|
  {
    if s == "" || !NameChar(s[0]) then 0 else 1 + NameLength(s[1..])
  }

  lemma {:induction false} NameEnds(name: string, rest: string)
    requires (forall i | 0 <= i < |name| :: NameChar(name[i])) && rest != "" && !NameChar(rest[0])
    ensures NameLength(name + rest) == |name|
  {
    if name == "" {
      assert name + rest == rest;
    } else {
      assert (name + rest)[1..] == name[1..] + rest;
      NameEnds(name[1..], rest);
    }
  }

  datatype Label = Label(name: string, value: string)

  datatype Sample = Sample(name: string, labels: seq<Label>, value: string)

  /** Labels up to the closing brace. */
  function ScanLabels(s: string): Option<Scan<seq<Label>>>
    decreases |s|
  {
    var n := NameLength(s);
    if s != "" && s[0] == '}' then Some(Scan([], s[1..]))
    else if n == 0 || n + 1 >= |s| || s[n] != '=' || s[n + 1] != '"' then None
    else
      var v := ScanValue(s[n + 2..]);
      if v.None? || v.value.rest == "" || |v.value.rest| >= |s| then None
      else if v.value.rest[0] == '}' then Some(Scan([Label(s[..n], v.value.got)], v.value.rest[1..]))
      else if v.value.rest[0] != ',' then None
      else
        var more := ScanLabels(v.value.rest[1..]);
        if more.None? then None else Some(Scan([Label(s[..n], v.value.got)] + more.value.got, more.value.rest))
  }

  /** One sample line. */
  function ReadSample(s: string): Option<Sample> {
    var n := NameLength(s);
    if n == 0 || n == |s| then None
    else if s[n] == ' ' then Some(Sample(s[..n], [], s[n + 1..]))
    else if s[n] != '{' then None
    else
      var ls := ScanLabels(s[n + 1..]);
      if ls.None? || ls.value.rest == "" || ls.value.rest[0] != ' ' then None
      else Some(Sample(s[..n], ls.value.got, ls.value.rest[1..]))
  }

  // ---- The writer ----

  function LabelText(l: Label): string { l.name + "=\"" + Escape(l.value) + "\"" }

  /** ",".join of the label texts. */
  function LabelsText(ls: seq<Label>): string {
    if ls == [] then "" else if |ls| == 1 then LabelText(ls[0]) else LabelText(ls[0]) + "," + LabelsText(ls[1..])
  }

  function SampleLine(s: Sample): string { s.name + "{" + LabelsText(s.labels) + "} " + s.value }

  function GaugeLine(s: Sample): string { s.name + " " + s.value }

  ghost predicate Writable(s: Sample) {
    IsName(s.name) && '\n' !in s.value && forall i | 0 <= i < |s.labels| :: IsName(s.labels[i].name)
  }

  lemma LabelScanned(l: Label, rest: string)
    requires IsName(l.name)
    ensures var s := LabelText(l) + rest; var n := NameLength(s);
            && n == |l.name| > 0 && n + 1 < |s| && s[n] == '=' && s[n + 1] == '"' && s[..n] == l.name
            && ScanValue(s[n + 2..]) == Some(Scan(l.value, rest)) && |rest| < |s| && s[0] != '}'
  {
    var s := LabelText(l) + rest;
    var n := |l.name|;
    EscapeIsPerChar(l.value);
    var body := Escape(l.value) + "\"" + rest;
    assert s == l.name + ("=\"" + body);
    NameEnds(l.name, "=\"" + body);
    assert s[n + 2..] == body;
    assert s[..n] == l.name;
    ScanEscaped(l.value, rest);
  }

  lemma LastLabel(l: Label, rest: string)
    requires IsName(l.name)
    ensures ScanLabels(LabelText(l) + ("}" + rest)) == Some(Scan([l], rest))
  {
    hide ScanValue, NameLength, Escape, LabelText;
    LabelScanned(l, "}" + rest);
    assert ("}" + rest)[1..] == rest;
  }

  lemma MoreLabels(l: Label, more: string, ls: seq<Label>, rest: string)
    requires IsName(l.name) && ScanLabels(more) == Some(Scan(ls, rest))
    ensures ScanLabels(LabelText(l) + ("," + more)) == Some(Scan([l] + ls, rest))
  {
    hide ScanValue, NameLength, Escape, LabelText;
    LabelScanned(l, "," + more);
    assert ("," + more)[1..] == more;
  }

  lemma NoLabels(rest: string)
    ensures ScanLabels("}" + rest) == Some(Scan([], rest)) && LabelsText([]) + "}" + rest == "}" + rest
  {
  }

  lemma LabelsTextParts(ls: seq<Label>, rest: string)
    requires ls != []
    ensures LabelsText(ls) + "}" + rest ==
            LabelText(ls[0]) + if |ls| == 1 then "}" + rest else "," + (LabelsText(ls[1..]) + "}" + rest)
  {
    hide LabelText;
    if |ls| == 1 {
      Regroup(LabelText(ls[0]), "", "", "}", rest);
    } else {
      Regroup(LabelText(ls[0]), ",", LabelsText(ls[1..]), "}", rest);
    }
  }

  lemma Regroup(a: string, b: string, c: string, d: string, e: string)
    ensures a + b + c + d + e == a + (b + (c + d + e))
  {
  }

  lemma {:induction false} LabelsScanned(ls: seq<Label>, rest: string)
    requires forall i | 0 <= i < |ls| :: IsName(ls[i].name)
    ensures ScanLabels(LabelsText(ls) + "}" + rest) == Some(Scan(ls, rest))
    decreases |ls|
  {
    hide LabelText, ScanLabels, LabelsText, IsName;
    if ls == [] {
      NoLabels(rest);
    } else if |ls| == 1 {
      LabelsTextParts(ls, rest);
      LastLabel(ls[0], rest);
      assert ls == [ls[0]];
    } else {
      LabelsTextParts(ls, rest);
      LabelsScanned(ls[1..], rest);
      MoreLabels(ls[0], LabelsText(ls[1..]) + "}" + rest, ls[1..], rest);
      assert ls == [ls[0]] + ls[1..];
    }
  }

  /** A rendered counter sample reads back as itself, whatever its label values are. */
  lemma SampleRoundTrip(s: Sample)
    requires Writable(s)
    ensures ReadSample(SampleLine(s)) == Some(s)
  {
    hide ScanLabels, NameLength, LabelsText;
    var line := SampleLine(s);
    var tail := LabelsText(s.labels) + "} " + s.value;
    assert line == s.name + ("{" + tail);
    NameLengthOf(s.name, "{" + tail);
    var n := |s.name|;
    assert line[..n] == s.name && line[n + 1..] == tail;
    LabelsScanned(s.labels, " " + s.value);
    assert tail == LabelsText(s.labels) + "}" + (" " + s.value);
    assert (" " + s.value)[1..] == s.value;
  }

  lemma NameLengthOf(name: string, rest: string)
    requires IsName(name) && rest != "" && (rest[0] == '{' || rest[0] == ' ')
    ensures NameLength(name + rest) == |name| > 0
  {
    NameEnds(name, rest);
  }

  lemma GaugeRoundTrip(s: Sample)
    requires Writable(s) && s.labels == []
    ensures ReadSample(GaugeLine(s)) == Some(s)
  {
    var line := GaugeLine(s);
    assert line == s.name + (" " + s.value);
    NameLengthOf(s.name, " " + s.value);
    assert line[..|s.name|] == s.name && line[|s.name| + 1..] == s.value;
  }

  // ---- Whole documents ----

  datatype Row = Row(labels: seq<string>, value: string)

  /** One counter family. */
  datatype Family = Family(name: string, help: string, labelNames: seq<string>, rows: seq<Row>)

  function Zip(names: seq<string>, values: seq<string>): seq<Label> {
    if names == [] || values == [] then [] else [Label(names[0], values[0])] + Zip(names[1..], values[1..])
  }

  function SampleOf(f: Family, r: Row): Sample { Sample(f.name, Zip(f.labelNames, r.labels), r.value) }

  function Samples(f: Family): seq<Sample> { seq(|f.rows|, i requires 0 <= i < |f.rows| => SampleOf(f, f.rows[i])) }

  function SampleLines(ss: seq<Sample>): seq<string> {
    seq(|ss|, i requires 0 <= i < |ss| => SampleLine(ss[i]))
  }

  function HelpLine(name: string, help: string): string { "# HELP " + name + " " + help }

  function TypeLine(name: string, kind: string): string { "# TYPE " + name + " " + kind }

  function FamilyLines(f: Family): seq<string> {
    [HelpLine(f.name, f.help), TypeLine(f.name, "counter")] + SampleLines(Samples(f))
  }

  function GaugeLines(help: string, g: Sample): seq<string> {
    [HelpLine(g.name, help), TypeLine(g.name, "gauge"), GaugeLine(g)]
  }

  lemma CommentLines(name: string)
    ensures TypeLine(name, "counter") == "# TYPE " + name + " counter"
    ensures TypeLine(name, "gauge") == "# TYPE " + name + " gauge"
  {
    assert " " + "counter" == " counter" && " " + "gauge" == " gauge";
    assert "# TYPE " + name + " " + "counter" == "# TYPE " + name + (" " + "counter");
    assert "# TYPE " + name + " " + "gauge" == "# TYPE " + name + (" " + "gauge");
  }

  /** The gauge's three lines. */
  lemma GaugeIs(help: string, g: Sample)
    ensures GaugeLines(help, g) ==
            ["# HELP " + g.name + " " + help, "# TYPE " + g.name + " gauge", GaugeLine(g)]
  {
    CommentLines(g.name);
  }

  method RenderCounter(f: Family) returns (lines: seq<string>)
    ensures lines == FamilyLines(f) && |lines| == |f.rows| + 2
    ensures lines[0] == "# HELP " + f.name + " " + f.help && lines[1] == "# TYPE " + f.name + " counter"
  {
    CommentLines(f.name);
    lines := ["# HELP " + f.name + " " + f.help, "# TYPE " + f.name + " " + "counter"];
    var i := 0;
    while i < |f.rows|
      invariant i <= |f.rows| && |lines| == i + 2 && lines[..2] == FamilyLines(f)[..2]
      invariant forall j | 0 <= j < i :: lines[j + 2] == SampleLine(SampleOf(f, f.rows[j]))
    {
      var s := SampleOf(f, f.rows[i]);
      lines := lines + [s.name + "{" + LabelsText(s.labels) + "} " + s.value];
      i := i + 1;
    }
    assert lines == lines[..2] + lines[2..] && lines[2..] == SampleLines(Samples(f));
  }

  /** "\n".join(lines) + "\n". */
  function Join(lines: seq<string>): string {
    if lines == [] then "" else if |lines| == 1 then lines[0] else lines[0] + "\n" + Join(lines[1..])
  }

  function Unlines(lines: seq<string>): string {
    if lines == [] then "" else lines[0] + ("\n" + Unlines(lines[1..]))
  }

  function FamiliesLines(fs: seq<Family>): seq<string> {
    if fs == [] then [] else FamilyLines(fs[0]) + FamiliesLines(fs[1..])
  }

  function Render(fs: seq<Family>, help: string, gauge: Sample): string {
    Join(FamiliesLines(fs) + GaugeLines(help, gauge)) + "\n"
  }

  function AllSamples(fs: seq<Family>): seq<Sample> {
    if fs == [] then [] else Samples(fs[0]) + AllSamples(fs[1..])
  }

  /** The lines of a text. */
  function Lines(text: string): seq<string>
    decreases |text|
  {
    if text == "" then []
    else
      var n := LineLength(text);
      if n == |text| then [text] else [text[..n]] + Lines(text[n + 1..])
  }

  function LineLength(text: string): (n: nat)
    ensures n <= |text|
  {
    if text == "" || text[0] == '\n' then 0 else 1 + LineLength(text[1..])
  }

  predicate IsComment(line: string) { line == "" || line[0] == '#' }

  /** Every sample of a document; none when a line is neither a comment nor a sample. */
  function ReadLines(lines: seq<string>): Option<seq<Sample>> {
    if lines == [] then Some([])
    else
      var more := ReadLines(lines[1..]);
      if more.None? || IsComment(lines[0]) then more
      else
        var s := ReadSample(lines[0]);
        if s.None? then None else Some([s.value] + more.value)
  }

  function ReadText(text: string): Option<seq<Sample>> { ReadLines(Lines(text)) }

  ghost predicate WritableFamily(f: Family) {
    && IsName(f.name) && '\n' !in f.help
    && (forall i | 0 <= i < |f.labelNames| :: IsName(f.labelNames[i]))
    && forall i | 0 <= i < |f.rows| :: '\n' !in f.rows[i].value
  }

  lemma {:induction false} LineEnds(line: string, rest: string)
    requires '\n' !in line
    ensures LineLength(line + ("\n" + rest)) == |line|
  {
    if line == "" {
      assert line + ("\n" + rest) == "\n" + rest;
    } else {
      assert (line + ("\n" + rest))[1..] == line[1..] + ("\n" + rest);
      LineEnds(line[1..], rest);
    }
  }

  lemma {:induction false} LinesUnlines(lines: seq<string>)
    requires forall i | 0 <= i < |lines| :: '\n' !in lines[i]
    ensures Lines(Unlines(lines)) == lines
  {
    if lines != [] {
      var rest := Unlines(lines[1..]);
      var t := lines[0] + ("\n" + rest);
      LineEnds(lines[0], rest);
      LinesUnlines(lines[1..]);
      assert t[..|lines[0]|] == lines[0] && t[|lines[0]| + 1..] == rest;
    }
  }

  lemma {:induction false} JoinIsUnlines(lines: seq<string>)
    requires lines != []
    ensures Join(lines) + "\n" == Unlines(lines)
  {
    if |lines| == 1 {
      assert lines[1..] == [];
    } else {
      JoinIsUnlines(lines[1..]);
    }
  }

  lemma {:induction false} LabelsClean(ls: seq<Label>)
    requires forall i | 0 <= i < |ls| :: IsName(ls[i].name)
    ensures '\n' !in LabelsText(ls)
  {
    if ls != [] {
      EscapeIsPerChar(ls[0].value);
      NoNewline(ls[0].value);
      LabelsClean(ls[1..]);
    }
  }

  lemma SampleClean(s: Sample)
    requires Writable(s)
    ensures '\n' !in SampleLine(s) && !IsComment(SampleLine(s))
  {
    LabelsClean(s.labels);
  }

  lemma {:induction false} ReadConcat(a: seq<string>, b: seq<string>)
    requires ReadLines(a).Some? && ReadLines(b).Some?
    ensures ReadLines(a + b) == Some(ReadLines(a).value + ReadLines(b).value)
  {
    if a == [] {
      assert a + b == b;
      assert ReadLines(a).value + ReadLines(b).value == ReadLines(b).value;
    } else {
      assert (a + b)[1..] == a[1..] + b && (a + b)[0] == a[0];
      ReadConcat(a[1..], b);
      if !IsComment(a[0]) {
        var s, x, y := ReadSample(a[0]).value, ReadLines(a[1..]).value, ReadLines(b).value;
        assert [s] + (x + y) == ([s] + x) + y;
      }
    }
  }

  lemma {:induction false} SamplesRead(ss: seq<Sample>)
    requires forall i | 0 <= i < |ss| :: Writable(ss[i])
    ensures ReadLines(SampleLines(ss)) == Some(ss)
    ensures forall i | 0 <= i < |ss| :: '\n' !in SampleLines(ss)[i]
  {
    hide SampleLine, ReadSample, IsComment, Writable;
    if ss != [] {
      SamplesRead(ss[1..]);
      SampleClean(ss[0]);
      SampleRoundTrip(ss[0]);
      assert SampleLines(ss)[1..] == SampleLines(ss[1..]);
      assert ss == [ss[0]] + ss[1..];
      forall i | 0 <= i < |ss| ensures '\n' !in SampleLines(ss)[i] {
        if i > 0 { assert SampleLines(ss)[i] == SampleLines(ss[1..])[i - 1]; }
      }
    }
  }

  lemma {:induction false} ZipNames(names: seq<string>, values: seq<string>)
    requires forall i | 0 <= i < |names| :: IsName(names[i])
    ensures forall i | 0 <= i < |Zip(names, values)| :: IsName(Zip(names, values)[i].name)
  {
    if names != [] && values != [] { ZipNames(names[1..], values[1..]); }
  }

  lemma FamilyReads(f: Family)
    requires WritableFamily(f)
    ensures ReadLines(FamilyLines(f)) == Some(Samples(f))
    ensures forall i | 0 <= i < |FamilyLines(f)| :: '\n' !in FamilyLines(f)[i]
  {
    SamplesWritable(f);
    SamplesRead(Samples(f));
    HeadClean(f);
    hide ReadLines, Samples, SampleLines, Writable, WritableFamily, HelpLine, TypeLine, IsComment;
    var help, kind, lines := HelpLine(f.name, f.help), TypeLine(f.name, "counter"), SampleLines(Samples(f));
    CommentsSkipped(help, kind);
    ReadConcat([help, kind], lines);
    assert [] + Samples(f) == Samples(f);
    SampleLinesLength(Samples(f));
    forall i | 0 <= i < |FamilyLines(f)| ensures '\n' !in FamilyLines(f)[i] {
      if i >= 2 { assert FamilyLines(f)[i] == lines[i - 2]; }
    }
  }

  lemma SamplesWritable(f: Family)
    requires WritableFamily(f)
    ensures forall i | 0 <= i < |Samples(f)| :: Writable(Samples(f)[i])
  {
    forall i | 0 <= i < |f.rows| ensures Writable(Samples(f)[i]) { ZipNames(f.labelNames, f.rows[i].labels); }
  }

  lemma SampleLinesLength(ss: seq<Sample>)
    ensures |SampleLines(ss)| == |ss|
  {
  }

  lemma HeadClean(f: Family)
    requires WritableFamily(f)
    ensures IsComment(HelpLine(f.name, f.help)) && '\n' !in HelpLine(f.name, f.help)
    ensures IsComment(TypeLine(f.name, "counter")) && '\n' !in TypeLine(f.name, "counter")
  {
  }

  lemma CommentsSkipped(a: string, b: string)
    requires IsComment(a) && IsComment(b)
    ensures ReadLines([a, b]) == Some([])
  {
    assert [a, b][1..] == [b] && [b][1..] == [];
    assert ReadLines([b]) == ReadLines([]);
  }

  lemma OneRead(line: string, s: Sample)
    requires !IsComment(line) && ReadSample(line) == Some(s)
    ensures ReadLines([line]) == Some([s])
  {
    assert [line][1..] == [];
    assert ReadLines([]) == Some([]);
    assert [s] + [] == [s];
  }

  lemma {:induction false} FamiliesRead(fs: seq<Family>)
    requires forall i | 0 <= i < |fs| :: WritableFamily(fs[i])
    ensures ReadLines(FamiliesLines(fs)) == Some(AllSamples(fs))
    ensures forall i | 0 <= i < |FamiliesLines(fs)| :: '\n' !in FamiliesLines(fs)[i]
  {
    hide FamilyLines, Samples, WritableFamily, ReadLines;
    if fs == [] {
      NothingRead();
    } else {
      FamilyReads(fs[0]);
      FamiliesRead(fs[1..]);
      ReadConcat(FamilyLines(fs[0]), FamiliesLines(fs[1..]));
    }
  }

  lemma NothingRead()
    ensures ReadLines([]) == Some([])
  {
  }

  lemma GaugeReads(help: string, g: Sample)
    requires Writable(g) && g.labels == [] && '\n' !in help
    ensures ReadLines(GaugeLines(help, g)) == Some([g])
    ensures forall i | 0 <= i < 3 :: '\n' !in GaugeLines(help, g)[i]
  {
    GaugeRoundTrip(g);
    var ls := GaugeLines(help, g);
    CommentsSkipped(ls[0], ls[1]);
    OneRead(ls[2], g);
    ReadConcat([ls[0], ls[1]], [ls[2]]);
    assert ls == [ls[0], ls[1]] + [ls[2]];
    assert [] + [g] == [g];
  }

  /** A rendered document reads back as exactly its samples, in order: for any label values, any number of families
      and rows. */
  lemma RenderRoundTrip(fs: seq<Family>, help: string, gauge: Sample)
    requires forall i | 0 <= i < |fs| :: WritableFamily(fs[i])
    requires Writable(gauge) && gauge.labels == [] && '\n' !in help
    ensures ReadText(Render(fs, help, gauge)) == Some(AllSamples(fs) + [gauge])
  {
    hide ReadLines, GaugeLines, Writable, WritableFamily, Lines;
    var a, b := FamiliesLines(fs), GaugeLines(help, gauge);
    FamiliesRead(fs);
    GaugeReads(help, gauge);
    ThreeLines(help, gauge);
    ReadConcat(a, b);
    forall i | 0 <= i < |a + b| ensures '\n' !in (a + b)[i] {
      assert (a + b)[i] == if i < |a| then a[i] else b[i - |a|];
    }
    JoinIsUnlines(a + b);
    LinesUnlines(a + b);
  }

  lemma ThreeLines(help: string, g: Sample)
    ensures |GaugeLines(help, g)| == 3
  {
  }
}
