/** `FileResultProcessor`: the sink that writes one text report per council and committee. The
    directory creation and the file write are not modelled; `Process` returns the file name
    and the text that would be written. */
module FileResultProcessor {
  import opened Text
  import opened PhaseResponses

  // ---------------------------------------------------------------- file name

  /** The characters `[a-zA-Z0-9 ._-]` that a file name keeps. */
  predicate Allowed(c: char) {
    ('a' <= c <= 'z') || ('A' <= c <= 'Z') || ('0' <= c <= '9') || c == ' ' || c == '.' || c == '_' || c == '-'
  }

  /** What `sanitizeFilename` puts in place of one character. */
  function Replacement(c: char): char {
    if Allowed(c) then c else '_'
  }

  /** `sanitizeFilename`: every character outside the allowed class becomes '_'. */
  function Sanitize(name: string): (r: string)
    ensures |r| == |name|
    ensures forall i :: 0 <= i < |r| ==> Allowed(r[i])
  {
    seq(|name|, i requires 0 <= i < |name| => Replacement(name[i]))
  }

  /** The name of the report file of a council's committee. */
  function FileName(councilName: string, committeeName: string): string {
    Sanitize(councilName + " - " + committeeName) + ".txt"
  }

  /** A name is left alone exactly when every character of it is allowed. */
  lemma SanitizeFixed(name: string)
    ensures Sanitize(name) == name <==> forall i :: 0 <= i < |name| ==> Allowed(name[i])
  {
    if forall i :: 0 <= i < |name| ==> Allowed(name[i]) {
      forall i | 0 <= i < |name| ensures Sanitize(name)[i] == name[i] {
        assert Sanitize(name)[i] == Replacement(name[i]);
      }
    }
  }

  /** Sanitising twice is sanitising once. */
  lemma SanitizeIdempotent(name: string)
    ensures Sanitize(Sanitize(name)) == Sanitize(name)
  {
    SanitizeFixed(Sanitize(name));
  }

  /** The report file stays in the output directory: its name has no path separator and ends
      in ".txt"; names made of allowed characters only are kept as they are. */
  lemma FileNameSafe(councilName: string, committeeName: string)
    ensures var f := FileName(councilName, committeeName);
            && (forall i :: 0 <= i < |f| ==> f[i] != '/' && f[i] != '\\')
            && EndsWith(f, ".txt")
    ensures (forall i :: 0 <= i < |councilName + " - " + committeeName| ==> Allowed((councilName + " - " + committeeName)[i]))
            ==> FileName(councilName, committeeName) == councilName + " - " + committeeName + ".txt"
  {
    var s := Sanitize(councilName + " - " + committeeName);
    var f := s + ".txt";
    forall i | 0 <= i < |f| ensures f[i] != '/' && f[i] != '\\' {
      if i < |s| {
        assert Allowed(s[i]);
      }
    }
    assert f[|f| - 4..] == ".txt";
    SanitizeFixed(councilName + " - " + committeeName);
  }

  /** A name from the processor's own test that is kept as it is. */
  lemma SanitizeKeepsSimpleName()
    ensures Sanitize("simple name") == "simple name"
  {
    var name := "simple name";
    assert forall i :: 0 <= i < |name| ==> Allowed(name[i]);
    SanitizeFixed(name);
  }

  /** A name from the processor's own test that is kept as it is. */
  lemma SanitizeKeepsDotsAndDashes()
    ensures Sanitize("dots.and-dashes") == "dots.and-dashes"
  {
    var name := "dots.and-dashes";
    assert forall i :: 0 <= i < |name| ==> Allowed(name[i]);
    SanitizeFixed(name);
  }

  /** The name of the processor's own test whose separator and brackets are replaced. */
  lemma SanitizeReplacesExample()
    ensures Sanitize("Council/Name - Committee<A>B") == "Council_Name - Committee_A_B"
  {
    var name, expected := "Council/Name - Committee<A>B", "Council_Name - Committee_A_B";
    var r := Sanitize(name);
    forall i | 0 <= i < |name| ensures r[i] == expected[i] {
      assert r[i] == Replacement(name[i]);
    }
  }

  // ---------------------------------------------------------------- report text

  /** The three header lines. */
  function Header(councilName: string, committeeName: string, count: nat): seq<string> {
    ["Council: " + councilName, "Committee: " + committeeName, "Schemes: " + NatToString(count)]
  }

  /** The lines one scheme adds: an empty line, the separator, and its four fields. */
  function Block(scheme: Scheme): seq<string> {
    ["", "---", "Title: " + scheme.title, "Topic: " + scheme.topic,
     "Meeting date: " + scheme.meetingDate, "Summary: " + scheme.summary]
  }

  function Blocks(schemes: seq<Scheme>): (r: seq<string>)
    ensures |r| == 6 * |schemes|
  {
    if schemes == [] then [] else Blocks(schemes[..|schemes| - 1]) + Block(schemes[|schemes| - 1])
  }

  function ReportLines(councilName: string, committeeName: string, schemes: seq<Scheme>): seq<string> {
    Header(councilName, committeeName, |schemes|) + Blocks(schemes)
  }

  /** The text `process` writes: the report's lines, each ended by a line feed. */
  function Report(councilName: string, committeeName: string, schemes: seq<Scheme>): string {
    AppendLines(ReportLines(councilName, committeeName, schemes))
  }

  /** Kotlin's `appendLine`; `lines` are the lines written so far. */
  method AppendLine(text: string, ghost lines: seq<string>, line: string) returns (r: string, ghost written: seq<string>)
    requires text == AppendLines(lines)
    ensures r == text + (line + "\n")
    ensures written == lines + [line] && r == AppendLines(written)
  {
    r := text + (line + "\n");
    written := lines + [line];
    assert written[..|lines|] == lines;
  }

  /** The six `appendLine` calls of one scheme. */
  method AppendScheme(text: string, ghost lines: seq<string>, scheme: Scheme) returns (r: string, ghost written: seq<string>)
    requires text == AppendLines(lines)
    ensures written == lines + Block(scheme) && r == AppendLines(written)
  {
    ghost var w0, w1, w2, w3, w4: seq<string>;
    var t0, t1, t2, t3, t4: string;
    t0, w0 := AppendLine(text, lines, "");
    t1, w1 := AppendLine(t0, w0, "---");
    t2, w2 := AppendLine(t1, w1, "Title: " + scheme.title);
    t3, w3 := AppendLine(t2, w2, "Topic: " + scheme.topic);
    t4, w4 := AppendLine(t3, w3, "Meeting date: " + scheme.meetingDate);
    r, written := AppendLine(t4, w4, "Summary: " + scheme.summary);
    SixLines(lines, "", "---", "Title: " + scheme.title, "Topic: " + scheme.topic,
      "Meeting date: " + scheme.meetingDate, "Summary: " + scheme.summary);
  }

  /** Six single-line appends add the six lines in order. */
  lemma SixLines(lines: seq<string>, a: string, b: string, c: string, d: string, e: string, f: string)
    ensures lines + [a] + [b] + [c] + [d] + [e] + [f] == lines + [a, b, c, d, e, f]
  {
  }

  /** `process`: the file name and the report text. */
  method Process(councilName: string, committeeName: string, schemes: seq<Scheme>) returns (fileName: string, content: string)
    ensures fileName == FileName(councilName, committeeName)
    ensures content == Report(councilName, committeeName, schemes)
  {
    fileName := Sanitize(councilName + " - " + committeeName) + ".txt";
    content := "";
    ghost var written: seq<string> := [];
    content, written := AppendLine(content, written, "Council: " + councilName);
    content, written := AppendLine(content, written, "Committee: " + committeeName);
    content, written := AppendLine(content, written, "Schemes: " + NatToString(|schemes|));
    assert written == Header(councilName, committeeName, |schemes|) + Blocks(schemes[..0]);
    for i := 0 to |schemes|
      invariant content == AppendLines(written)
      invariant written == Header(councilName, committeeName, |schemes|) + Blocks(schemes[..i])
    {
      ghost var before := written;
      content, written := AppendScheme(content, written, schemes[i]);
      assert schemes[..i + 1][..i] == schemes[..i];
      assert Blocks(schemes[..i + 1]) == Blocks(schemes[..i]) + Block(schemes[i]);
    }
    assert schemes[..|schemes|] == schemes;
  }

  // ---------------------------------------------------------------- report properties

  /** How many of `lines` are exactly `x`. */
  function Occurrences(lines: seq<string>, x: string): nat {
    if lines == [] then 0
    else Occurrences(lines[..|lines| - 1], x) + (if lines[|lines| - 1] == x then 1 else 0)
  }

  lemma {:induction false} OccurrencesAppend(a: seq<string>, b: seq<string>, x: string)
    ensures Occurrences(a + b, x) == Occurrences(a, x) + Occurrences(b, x)
    decreases |b|
  {
    if b == [] {
      assert a + b == a;
    } else {
      assert (a + b)[..|a + b| - 1] == a + b[..|b| - 1];
      OccurrencesAppend(a, b[..|b| - 1], x);
    }
  }

  lemma {:induction false} OccurrencesNone(lines: seq<string>, x: string)
    requires forall k :: 0 <= k < |lines| ==> lines[k] != x
    ensures Occurrences(lines, x) == 0
    decreases |lines|
  {
    if lines != [] {
      OccurrencesNone(lines[..|lines| - 1], x);
    }
  }

  /** One "---" line per scheme; none at all when there are no schemes. */
  lemma SeparatorPerScheme(councilName: string, committeeName: string, schemes: seq<Scheme>)
    ensures Occurrences(ReportLines(councilName, committeeName, schemes), "---") == |schemes|
  {
    var header := Header(councilName, committeeName, |schemes|);
    assert header[0][0] == 'C' && header[1][0] == 'C' && header[2][0] == 'S';
    OccurrencesNone(header, "---");
    OccurrencesAppend(header, Blocks(schemes), "---");
    SeparatorsOfBlocks(schemes);
  }

  lemma {:induction false} SeparatorsOfBlocks(schemes: seq<Scheme>)
    ensures Occurrences(Blocks(schemes), "---") == |schemes|
    decreases |schemes|
  {
    if schemes != [] {
      var b := Block(schemes[|schemes| - 1]);
      SeparatorsOfBlocks(schemes[..|schemes| - 1]);
      OccurrencesAppend(Blocks(schemes[..|schemes| - 1]), b, "---");
      assert b == ["", "---"] + b[2..];
      OccurrencesAppend(["", "---"], b[2..], "---");
      assert b[2..][0][0] == 'T' && b[2..][1][0] == 'T' && b[2..][2][0] == 'M' && b[2..][3][0] == 'S';
      OccurrencesNone(b[2..], "---");
      assert ["", "---"][..1] == [""];
      assert [""][..0] == [];
    }
  }

  /** No line of a scheme's block holds a line feed. */
  predicate SingleLine(scheme: Scheme) {
    Excludes(scheme.title, '\n') && Excludes(scheme.topic, '\n')
    && Excludes(scheme.meetingDate, '\n') && Excludes(scheme.summary, '\n')
  }

  /** When no field holds a line feed, the report reads back, line by line, as the header lines
      followed by six lines per scheme (`BlockAt` places each), then the empty rest after the
      last line feed. */
  lemma ReportReadsBack(councilName: string, committeeName: string, schemes: seq<Scheme>)
    requires Excludes(councilName, '\n') && Excludes(committeeName, '\n')
    requires forall k :: 0 <= k < |schemes| ==> SingleLine(schemes[k])
    ensures SplitChar(Report(councilName, committeeName, schemes), '\n')
            == ["Council: " + councilName, "Committee: " + committeeName, "Schemes: " + NatToString(|schemes|)]
               + Blocks(schemes) + [""]
  {
    ReportLinesExclude(councilName, committeeName, schemes);
    SplitAppendLines(ReportLines(councilName, committeeName, schemes), "");
    assert Report(councilName, committeeName, schemes) + "" == Report(councilName, committeeName, schemes);
  }

  lemma ReportLinesExclude(councilName: string, committeeName: string, schemes: seq<Scheme>)
    requires Excludes(councilName, '\n') && Excludes(committeeName, '\n')
    requires forall k :: 0 <= k < |schemes| ==> SingleLine(schemes[k])
    ensures var lines := ReportLines(councilName, committeeName, schemes);
            forall k :: 0 <= k < |lines| ==> Excludes(lines[k], '\n')
  {
    var header := Header(councilName, committeeName, |schemes|);
    ExcludesConcat("Council: ", councilName, '\n');
    ExcludesConcat("Committee: ", committeeName, '\n');
    ExcludesConcat("Schemes: ", NatToString(|schemes|), '\n');
    BlocksExclude(schemes);
    ExcludesAll(header, Blocks(schemes));
  }

  lemma ExcludesAll(a: seq<string>, b: seq<string>)
    requires forall k :: 0 <= k < |a| ==> Excludes(a[k], '\n')
    requires forall k :: 0 <= k < |b| ==> Excludes(b[k], '\n')
    ensures forall k :: 0 <= k < |a + b| ==> Excludes((a + b)[k], '\n')
  {
    forall k | 0 <= k < |a + b| ensures Excludes((a + b)[k], '\n') {
      if k >= |a| {
        assert (a + b)[k] == b[k - |a|];
      }
    }
  }

  lemma {:induction false} BlocksExclude(schemes: seq<Scheme>)
    requires forall k :: 0 <= k < |schemes| ==> SingleLine(schemes[k])
    ensures forall k :: 0 <= k < |Blocks(schemes)| ==> Excludes(Blocks(schemes)[k], '\n')
    decreases |schemes|
  {
    if schemes != [] {
      var init := schemes[..|schemes| - 1];
      var s := schemes[|schemes| - 1];
      assert SingleLine(s);
      BlocksExclude(init);
      ExcludesConcat("Title: ", s.title, '\n');
      ExcludesConcat("Topic: ", s.topic, '\n');
      ExcludesConcat("Meeting date: ", s.meetingDate, '\n');
      ExcludesConcat("Summary: ", s.summary, '\n');
      ExcludesAll(Blocks(init), Block(s));
    }
  }

  /** The i-th scheme's block sits at lines 3 + 6i to 3 + 6i + 5. */
  lemma {:induction false} BlockAt(schemes: seq<Scheme>, i: nat)
    requires i < |schemes|
    ensures Blocks(schemes)[6 * i..6 * i + 6] == Block(schemes[i])
    decreases |schemes|
  {
    var init := schemes[..|schemes| - 1];
    if i < |init| {
      BlockAt(init, i);
      assert Blocks(schemes)[6 * i..6 * i + 6] == Blocks(init)[6 * i..6 * i + 6];
    } else {
      assert Blocks(schemes)[6 * i..6 * i + 6] == Block(schemes[i]);
    }
  }
}
