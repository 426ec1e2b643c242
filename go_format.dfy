/**
 * The formatting provider: it runs the configured format tool from
 * `$GOPATH/bin` on the document's file and turns the outcome into edits.
 */
module GoFormat {
  import opened Wrappers
  import opened Text
  import Paths
  import opened Processes
  import opened Editor

  /** The tool used when the configuration names none. */
  const DefaultFormatTool: string := "goreturns"

  /** The rejection reason for any failure other than a missing tool. */
  const SyntaxErrorMessage: string := "Cannot format due to syntax errors."

  /** The `go` configuration section, as far as formatting reads it. */
  datatype GoConfiguration = GoConfiguration(formatTool: Option<string>)

  /** JavaScript truthiness of a string setting: present and not empty. */
  predicate IsTruthy(setting: Option<string>)
  {
    setting.Some? && setting.value != ""
  }

  /** From the first character to the end of the last line. */
  function WholeDocument(model: TextModel): EditRange
    requires model.Valid()
  {
    EditRange(1, 1, model.LineCount(), model.LineMaxColumn(model.LineCount()))
  }

  /**
   * The callback of the format run: a missing tool resolves to `null`, any
   * other failure rejects with the syntax-error message, and success gives a
   * single edit that puts the tool's output in place of the whole document.
   */
  function FormatOutcome(outcome: ProcResult, model: TextModel): (r: Settled<seq<Edit>>)
    requires model.Valid()
    ensures r == Resolved(None) <==> outcome.NotFound?
    ensures r.Rejected? <==> outcome.Failed?
    ensures r.Rejected? ==> r.reason == SyntaxErrorMessage
    ensures outcome.Ok? ==> r.Resolved? && r.value.Some? && |r.value.value| == 1
                            && r.value.value[0].text == outcome.stdout
                            && r.value.value[0].range == EditRange(1, 1, |model.lines|, |model.lines[|model.lines| - 1]| + 1)
  {
    match outcome
    case NotFound => Resolved(None)
    case Failed(_) => Rejected(SyntaxErrorMessage)
    case Ok(stdout) => Resolved(Some([Edit(stdout, WholeDocument(model))]))
  }

  /** The range of the format edit runs from the very start of the text to its very end. */
  lemma WholeDocumentSpansText(model: TextModel)
    requires model.Valid()
    ensures IsRangeOf(model, WholeDocument(model))
    ensures model.OffsetAt(1, 1) == 0
    ensures model.OffsetAt(model.LineCount(), model.LineMaxColumn(model.LineCount())) == |model.Text()|
  {
    var n := |model.lines|;
    var lines := model.lines;
    WidthAppend(lines[..n - 1], [lines[n - 1]]);
    assert lines[..n - 1] + [lines[n - 1]] == lines;
    JoinLinesWidth(lines);
  }

  /** Applying the format edit leaves exactly the tool's output as the document. */
  lemma FormatReplacesDocument(model: TextModel, stdout: string)
    requires model.Valid()
    ensures FormatOutcome(Ok(stdout), model).value.value[0] == Edit(stdout, WholeDocument(model))
    ensures ApplyEdit(model, Edit(stdout, WholeDocument(model))) == TextModel(SplitLines(stdout))
  {
    WholeDocumentSpansText(model);
    var t := model.Text();
    assert t[..0] + stdout + t[|t|..] == stdout;
  }

  /**
   * Formatting an already formatted file: the edit's text is the document's
   * text, and applying it leaves the document as it was.
   */
  lemma FormatFixedPoint(model: TextModel)
    requires model.Valid()
    ensures FormatOutcome(Ok(model.Text()), model).value.value[0].text == model.Text()
    ensures ApplyEdit(model, FormatOutcome(Ok(model.Text()), model).value.value[0]) == model
  {
    FormatReplacesDocument(model, model.Text());
    SplitJoin(model.lines);
  }

  /** The provider; the tool it runs can be changed by the configuration after construction. */
  class FormattingSupport
  {
    var formatCommand: string

    constructor ()
      ensures formatCommand == DefaultFormatTool
    {
      formatCommand := DefaultFormatTool;
    }

    /** The configuration arrives: a truthy `formatTool` replaces the tool, anything else keeps it. */
    method OnConfigurationLoaded(config: GoConfiguration)
      modifies this
      ensures formatCommand == if IsTruthy(config.formatTool) then config.formatTool.value else old(formatCommand)
    {
      if IsTruthy(config.formatTool) {
        formatCommand := config.formatTool.value;
      }
    }

    /** `$GOPATH/bin/<formatCommand>`. */
    function ToolPath(gopath: string): (p: string)
      reads this
      ensures p == gopath + "/bin/" + formatCommand
    {
      Paths.Join(Paths.Join(gopath, "bin"), formatCommand)
    }

    /**
     * Formatting a document: the tool is run with the file name as its only
     * argument, and its outcome settles the request as `FormatOutcome` says.
     */
    method DoFormatDocument(gopath: string, filename: string, model: TextModel, outcome: ProcResult)
      returns (invocation: ToolInvocation, settled: Settled<seq<Edit>>)
      requires model.Valid()
      ensures invocation == ToolInvocation(gopath + "/bin/" + formatCommand, [filename])
      ensures settled == FormatOutcome(outcome, model)
    {
      invocation := ToolInvocation(ToolPath(gopath), [filename]);
      settled := FormatOutcome(outcome, model);
    }
  }

  /** A provider as it stands once its configuration has arrived. */
  method NewConfiguredFormatter(config: GoConfiguration) returns (f: FormattingSupport)
    ensures fresh(f)
    ensures f.formatCommand == if IsTruthy(config.formatTool) then config.formatTool.value else DefaultFormatTool
  {
    f := new FormattingSupport();
    f.OnConfigurationLoaded(config);
  }
}
