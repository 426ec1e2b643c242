/**
 * The part of the editor's text model the formatter relies on: a document
 * as lines, one-based positions in it, and what applying an edit does.
 */
module Editor {
  import opened Text

  /** A span in one-based line numbers and columns; the end column is exclusive. */
  datatype EditRange = EditRange(startLineNumber: int, startColumn: int, endLineNumber: int, endColumn: int)

  /** Replace the text in `range` by `text`. */
  datatype Edit = Edit(text: string, range: EditRange)

  /** The characters of `lines`, each counted with the line break after it. */
  function Width(lines: seq<string>): nat
  {
    if lines == [] then 0 else |lines[0]| + 1 + Width(lines[1..])
  }

  lemma {:induction false} WidthAppend(a: seq<string>, b: seq<string>)
    ensures Width(a + b) == Width(a) + Width(b)
    decreases |a|
  {
    if a == [] {
      assert a + b == b;
    } else {
      assert (a + b)[0] == a[0] && (a + b)[1..] == a[1..] + b;
      WidthAppend(a[1..], b);
    }
  }

  /** The joined text has every line break but the last. */
  lemma {:induction false} JoinLinesWidth(lines: seq<string>)
    requires |lines| >= 1
    ensures |JoinLines(lines)| + 1 == Width(lines)
    decreases |lines|
  {
    if |lines| > 1 {
      JoinLinesWidth(lines[1..]);
    }
  }

  /** A document: at least one line, none holding a line break. */
  datatype TextModel = TextModel(lines: seq<string>)
  {
    predicate Valid()
    {
      |lines| >= 1 && forall i :: 0 <= i < |lines| ==> '\n' !in lines[i]
    }

    function LineCount(): nat { |lines| }

    /** One past the last character of the line: where an edit reaching the line's end stops. */
    function LineMaxColumn(lineNumber: int): int
      requires 1 <= lineNumber <= |lines|
    {
      |lines[lineNumber - 1]| + 1
    }

    function Text(): string
      requires Valid()
    {
      JoinLines(lines)
    }

    predicate IsPosition(lineNumber: int, column: int)
    {
      1 <= lineNumber <= |lines| && 1 <= column <= LineMaxColumn(lineNumber)
    }

    /** Where a position falls in the document's text. */
    function OffsetAt(lineNumber: int, column: int): (offset: nat)
      requires Valid() && IsPosition(lineNumber, column)
      ensures offset <= |Text()|
      ensures lineNumber == 1 ==> offset == column - 1
    {
      WidthAppend(lines[..lineNumber - 1], [lines[lineNumber - 1]]);
      WidthAppend(lines[..lineNumber], lines[lineNumber..]);
      assert lines[..lineNumber - 1] + [lines[lineNumber - 1]] == lines[..lineNumber];
      assert lines[..lineNumber] + lines[lineNumber..] == lines;
      JoinLinesWidth(lines);
      Width(lines[..lineNumber - 1]) + column - 1
    }
  }

  predicate IsRangeOf(model: TextModel, r: EditRange)
  {
    model.Valid() && model.IsPosition(r.startLineNumber, r.startColumn) &&
    model.IsPosition(r.endLineNumber, r.endColumn) &&
    model.OffsetAt(r.startLineNumber, r.startColumn) <= model.OffsetAt(r.endLineNumber, r.endColumn)
  }

  /** The document after the editor replaces the edit's range by its text. */
  function ApplyEdit(model: TextModel, e: Edit): (r: TextModel)
    requires IsRangeOf(model, e.range)
    ensures r.Valid()
  {
    var t := model.Text();
    var from := model.OffsetAt(e.range.startLineNumber, e.range.startColumn);
    var to := model.OffsetAt(e.range.endLineNumber, e.range.endColumn);
    TextModel(SplitLines(t[..from] + e.text + t[to..]))
  }
}
