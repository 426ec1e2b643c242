/**
 * The reference provider: from a document's file name, whether a word sits
 * under the cursor, the cursor's byte offset and the outcome of running the
 * `oracle` tool, to the locations the editor shows.
 */
module GoReferences {
  import opened Wrappers
  import opened Text
  import Paths
  import opened Processes
  import opened ReferencePattern

  /** An editor range: zero-based lines and characters. */
  datatype Range = Range(startLine: int, startCharacter: int, endLine: int, endCharacter: int)

  /** A reference: the file it is in and where. */
  datatype Location = Location(uri: string, range: Range)

  /** The mode argument that asks the tool for the referrers of an identifier. */
  const ReferrersMode: string := "referrers"

  /** What `/^[a-z]:\\/` accepts: a lower-case drive letter, a colon and a backslash. */
  predicate IsLowerCaseDrivePath(filename: string)
  {
    |filename| >= 3 && 'a' <= filename[0] <= 'z' && filename[1] == ':' && filename[2] == '\\'
  }

  /** `s.replace(/\\/g, '/')`. */
  function ReplaceBackslashes(s: string): (r: string)
    ensures |r| == |s|
    ensures forall i :: 0 <= i < |s| ==> r[i] == (if s[i] == '\\' then '/' else s[i])
  {
    if s == [] then []
    else [if s[0] == '\\' then '/' else s[0]] + ReplaceBackslashes(s[1..])
  }

  /**
   * A lower-case drive path has every backslash turned into a slash, since the
   * tool matches file names textually; every other name is left alone.
   */
  function CanonicalizeForWindows(filename: string): (r: string)
    ensures IsLowerCaseDrivePath(filename) ==>
              |r| == |filename| && '\\' !in r &&
              forall i :: 0 <= i < |r| ==> r[i] == (if filename[i] == '\\' then '/' else filename[i])
    ensures !IsLowerCaseDrivePath(filename) ==> r == filename
  {
    if IsLowerCaseDrivePath(filename) then
      var r := ReplaceBackslashes(filename);
      assert forall c | c in r :: c != '\\';
      r
    else filename
  }

  /** A canonical name stays as it is: its third character is no longer a backslash. */
  lemma CanonicalizeIdempotent(filename: string)
    ensures CanonicalizeForWindows(CanonicalizeForWindows(filename)) == CanonicalizeForWindows(filename)
  {
  }

  /**
   * `-pos=<file>:#<offset>`, the tool's query position: the file name and the
   * offset can both be read back from it, the offset as the digits after the last `#`.
   */
  function PositionArgument(filename: string, offset: nat): (r: string)
    ensures |r| > 7 + |filename|
    ensures r[..5] == "-pos=" && r[5..5 + |filename|] == filename
    ensures r[5 + |filename|..7 + |filename|] == ":#"
    ensures IsDigits(r[7 + |filename|..]) && DecimalValue(r[7 + |filename|..]) == offset
  {
    var r := "-pos=" + filename + ":#" + Decimal(offset);
    assert r[7 + |filename|..] == Decimal(offset);
    DecimalRoundTrip(offset);
    r
  }

  /**
   * One match turned into a location: the file resolved against `cwd`, the
   * tool's one-based lines and start column made zero-based, the end column kept.
   */
  function LocationOf(m: LineMatch, cwd: string): (r: Location)
    requires AllGroupsDigits(m.Groups())
    ensures r.uri == Paths.Resolve(cwd, m.file)
    ensures r.range.startLine >= -1 && r.range.startLine + 1 == DecimalValue(m.Groups()[0])
    ensures r.range.startCharacter >= -1 && r.range.startCharacter + 1 == DecimalValue(m.Groups()[1])
    ensures r.range.endLine >= -1 && r.range.endLine + 1 == DecimalValue(m.Groups()[2])
    ensures r.range.endCharacter >= 0 && r.range.endCharacter == DecimalValue(m.Groups()[3])
  {
    assert IsDigits(m.Groups()[0]) && IsDigits(m.Groups()[1]) && IsDigits(m.Groups()[2]) && IsDigits(m.Groups()[3]);
    Location(
      Paths.Resolve(cwd, m.file),
      Range(DecimalValue(m.startLine) - 1, DecimalValue(m.startCol) - 1,
            DecimalValue(m.endLine) - 1, DecimalValue(m.endCol)))
  }

  /** The locations one output line contributes: one for a record, none otherwise. */
  function ParseLine(line: string, cwd: string): (r: seq<Location>)
    ensures |r| <= 1
    ensures r == [] <==> forall m :: !IsMatch(line, m)
    ensures r != [] ==> MatchLine(line).Some? && r[0] == LocationOf(MatchLine(line).value, cwd)
  {
    MatchLineNone(line);
    match MatchLine(line)
    case None => []
    case Some(m) => [LocationOf(m, cwd)]
  }

  /**
   * The location a line yields, stated without the search: that of the match
   * whose file part is longest, when the line has any match at all.
   */
  lemma ParseLineOfLongestMatch(line: string, cwd: string, m: LineMatch)
    requires IsMatch(line, m)
    requires forall other :: IsMatch(line, other) ==> |other.file| <= |m.file|
    ensures ParseLine(line, cwd) == [LocationOf(m, cwd)]
  {
    MatchLineGreedy(line, m);
    MatchDeterminedByFile(line, MatchLine(line).value, m);
  }

  /** The locations of all records among `lines`, in output order. */
  function ParseLocations(lines: seq<string>, cwd: string): (r: seq<Location>)
    ensures |r| <= |lines|
  {
    if lines == [] then [] else ParseLine(lines[0], cwd) + ParseLocations(lines[1..], cwd)
  }

  /** Parsing distributes over concatenation of the output: order is kept and lines do not interact. */
  lemma {:induction false} ParseLocationsAppend(a: seq<string>, b: seq<string>, cwd: string)
    ensures ParseLocations(a + b, cwd) == ParseLocations(a, cwd) + ParseLocations(b, cwd)
    decreases |a|
  {
    if a != [] {
      var ab := a + b;
      assert ab[0] == a[0] && ab[1..] == a[1..] + b;
      ParseLocationsAppend(a[1..], b, cwd);
      var head := ParseLine(a[0], cwd);
      assert ParseLocations(ab, cwd) == head + ParseLocations(a[1..] + b, cwd);
      assert ParseLocations(a, cwd) == head + ParseLocations(a[1..], cwd);
    } else {
      assert a + b == b;
    }
  }

  /** The empty piece after a trailing newline adds nothing. */
  lemma ParseLocationsTrailingEmptyLine(lines: seq<string>, cwd: string)
    ensures ParseLocations(lines + [""], cwd) == ParseLocations(lines, cwd)
  {
    ParseLocationsAppend(lines, [""], cwd);
    MatchHasColon("");
  }

  /** One more line read: its locations come after those of the lines before it. */
  lemma ParseLocationsStep(lines: seq<string>, i: nat, cwd: string)
    requires i < |lines|
    ensures ParseLocations(lines[..i + 1], cwd) == ParseLocations(lines[..i], cwd) + ParseLine(lines[i], cwd)
  {
    assert lines[..i + 1] == lines[..i] + [lines[i]];
    ParseLocationsAppend(lines[..i], [lines[i]], cwd);
    assert ParseLocations([lines[i]], cwd) == ParseLine(lines[i], cwd);
  }

  /** The loop of the tool's callback: match each line, push a location for each record. */
  method CollectLocations(lines: seq<string>, cwd: string) returns (results: seq<Location>)
    ensures results == ParseLocations(lines, cwd)
  {
    results := [];
    for i := 0 to |lines|
      invariant results == ParseLocations(lines[..i], cwd)
    {
      ParseLocationsStep(lines, i, cwd);
      var found := MatchLine(lines[i]);
      if found.None? {
        continue;
      }
      results := results + [LocationOf(found.value, cwd)];
    }
    assert lines[..|lines|] == lines;
  }

  /**
   * Finding references. Without a word under the cursor the answer is the empty
   * list and nothing is run; otherwise the tool is run with the query position
   * and the `referrers` mode, a missing tool gives `null`, and any other outcome
   * has its standard output parsed, relative to the canonical file's directory.
   */
  method DoFindReferences(fileName: string, wordAtPosition: bool, offset: nat, oraclePath: string, outcome: ProcResult)
    returns (invocation: Option<ToolInvocation>, settled: Settled<seq<Location>>)
    ensures !wordAtPosition ==> invocation == None && settled == Resolved(Some([]))
    ensures wordAtPosition ==>
              invocation == Some(ToolInvocation(oraclePath,
                [PositionArgument(CanonicalizeForWindows(fileName), offset), ReferrersMode]))
    ensures settled.Resolved?
    ensures settled.value.None? <==> wordAtPosition && outcome.NotFound?
    ensures wordAtPosition && !outcome.NotFound? ==>
              settled.value.value == ParseLocations(SplitLines(outcome.stdout),
                                                    Paths.Dirname(CanonicalizeForWindows(fileName)))
  {
    var filename := CanonicalizeForWindows(fileName);
    var cwd := Paths.Dirname(filename);
    if !wordAtPosition {
      return None, Resolved(Some([]));
    }
    invocation := Some(ToolInvocation(oraclePath, [PositionArgument(filename, offset), ReferrersMode]));
    if outcome.NotFound? {
      return invocation, Resolved(None);
    }
    var lines := SplitLines(outcome.stdout);
    var results := CollectLocations(lines, cwd);
    settled := Resolved(Some(results));
  }

  /** The line the tool writes for a reference: `file:line.col-line.col:` and a description. */
  function RecordLine(file: string, startLine: nat, startCol: nat, endLine: nat, endCol: nat, description: string): string
  {
    MatchedText(LineMatch(file, Decimal(startLine), Decimal(startCol), Decimal(endLine), Decimal(endCol))) + description
  }

  /** In the separators' interleaving with digit groups, only the last character can be a colon. */
  lemma {:induction false} InterleaveColons(gs: seq<string>, seps: string)
    requires |gs| == |seps| && |seps| > 0 && AllGroupsDigits(gs)
    requires forall j :: 0 <= j < |seps| - 1 ==> seps[j] != ':'
    ensures |Interleave(gs, seps)| > 0 && Interleave(gs, seps)[|Interleave(gs, seps)| - 1] == seps[|seps| - 1]
    ensures forall j :: 0 <= j < |Interleave(gs, seps)| - 1 ==> Interleave(gs, seps)[j] != ':'
    decreases |seps|
  {
    var t := Interleave(gs, seps);
    var head := gs[0] + [seps[0]];
    assert t == head + Interleave(gs[1..], seps[1..]);
    assert IsDigits(gs[0]);
    if |seps| > 1 {
      InterleaveColons(gs[1..], seps[1..]);
      assert forall j :: 0 <= j < |head| ==> t[j] != ':';
      assert forall j :: |head| <= j < |t| - 1 ==> t[j] == Interleave(gs[1..], seps[1..])[j - |head|];
    } else {
      assert t == head;
    }
  }

  /**
   * A description the pattern cannot mistake for more of the record: it does not
   * start with a digit, and none of its colons is followed by a digit.
   */
  predicate PlainDescription(description: string)
  {
    (description == [] || !IsDigit(description[0])) &&
    forall j :: 0 <= j < |description| - 1 && description[j] == ':' ==> !IsDigit(description[j + 1])
  }

  /** Past the file name, no colon of a record line is followed by a digit. */
  lemma RecordLineColons(m0: LineMatch, description: string)
    requires AllGroupsDigits(m0.Groups()) && PlainDescription(description)
    ensures forall j :: |m0.file| < j < |MatchedText(m0) + description| - 1 && (MatchedText(m0) + description)[j] == ':'
                        ==> !IsDigit((MatchedText(m0) + description)[j + 1])
  {
    var line := MatchedText(m0) + description;
    var r0 := MatchedText(m0);
    InterleaveColons(m0.Groups(), GroupSeparators);
    forall j | |m0.file| < j < |line| - 1 ensures line[j] == ':' ==> !IsDigit(line[j + 1]) {
      if j < |r0| - 1 {
        assert line[j] == Interleave(m0.Groups(), GroupSeparators)[j - |m0.file| - 1];
      } else if j == |r0| - 1 {
        assert line[j + 1] == description[0];
      } else {
        assert line[j] == description[j - |r0|] && line[j + 1] == description[j - |r0| + 1];
      }
    }
  }

  /**
   * On a record line the pattern finds the record itself: a longer file part would
   * have to end at a colon followed by a digit, and past the file name there is none.
   */
  lemma MatchRecordLine(m0: LineMatch, description: string)
    requires DotStar(m0.file) && AllGroupsDigits(m0.Groups()) && PlainDescription(description)
    ensures MatchLine(MatchedText(m0) + description) == Some(m0)
  {
    var line := MatchedText(m0) + description;
    assert IsMatch(line, m0);
    MatchLineGreedy(line, m0);
    var m := MatchLine(line).value;
    RecordLineColons(m0, description);
    var r := MatchedText(m);
    assert r[|m.file|] == ':' && r[|m.file| + 1] == m.startLine[0];
    assert IsDigits(m.Groups()[0]);
    assert line[|m.file|] == ':' && IsDigit(line[|m.file| + 1]);
    MatchDeterminedByFile(line, m, m0);
  }

  /**
   * Reading back a record: a line the tool writes for a file whose name `.`
   * can match, with a description the pattern cannot read as more record, gives exactly that
   * file (resolved) and range, shifted to the editor's zero-based lines and start column.
   */
  lemma ParseRecordLine(cwd: string, file: string, startLine: nat, startCol: nat, endLine: nat, endCol: nat, description: string)
    requires DotStar(file) && PlainDescription(description)
    ensures ParseLine(RecordLine(file, startLine, startCol, endLine, endCol, description), cwd)
            == [Location(Paths.Resolve(cwd, file), Range(startLine - 1, startCol - 1, endLine - 1, endCol))]
  {
    var m0 := LineMatch(file, Decimal(startLine), Decimal(startCol), Decimal(endLine), Decimal(endCol));
    MatchRecordLine(m0, description);
    DecimalRoundTrip(startLine);
    DecimalRoundTrip(startCol);
    DecimalRoundTrip(endLine);
    DecimalRoundTrip(endCol);
  }
}
