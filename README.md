# vscode-go: reference lookup and formatting, result translation

This project models the core of two editor providers of the Go extension for
Visual Studio Code. Each runs an external Go tool and turns what the tool
reports into editor data:

- **Reference provider** (`src/goReferences.ts`). It canonicalises the document's file
  name for the tool. It answers `[]` at once when no word is under the cursor. Otherwise
  it runs `oracle -pos=<file>:#<offset> referrers` and reads the tool's standard output
  line by line. Every line that matches `^(.*):(\d+)\.(\d+)-(\d+)\.(\d+):` becomes a
  location. Its file is resolved against the directory of the document. Its lines and
  start column become zero-based, and its end column is kept as written. A missing tool
  gives `null`, which is not the same as an empty list.
- **Formatting provider** (`src/goFormat.ts`). It runs `$GOPATH/bin/<formatCommand>`
  with the file name. The command is `goreturns` unless the `go.formatTool` setting is
  truthy. A missing tool resolves to `null`. Any other failure rejects with
  `"Cannot format due to syntax errors."`. Success gives one edit that replaces the
  whole document, from (1, 1) to the end of the last line, with the tool's output.

Modules:

- `Text` (text.dfy): decimal digit strings, and splitting output on `'\n'`.
- `Paths` (paths.dfy): a small abstract `join` / `resolve` / `dirname`.
- `Processes` (processes.dfy): the invocation, the outcome of a run, and how a promise settles.
- `ReferencePattern` (reference_pattern.dfy): the regular expression, with JavaScript's semantics.
- `GoReferences` (go_references.dfy): the reference provider.
- `Editor` (editor.dfy): the document model that the format edit applies to.
- `GoFormat` (go_format.dfy): the formatting provider, a class whose `formatCommand`
  field the configuration callback overwrites.

A run of a tool is an input, `ProcResult = NotFound | Failed(stdout) | Ok(stdout)`.
`NotFound` is the `ENOENT` error. Since it is its own case, the check for it comes
before the generic error check, as it does in the code. A provider's answer is
`Settled = Resolved(Option<T>) | Rejected(reason)`, where `Resolved(None)` is
`resolve(null)`.

Behaviour of the code worth noting:

- The reference tool is started with no options (`{}`), so it does not run in the
  document's directory. That directory is used only to resolve the file names the tool
  prints.
- The reference callback checks only for `ENOENT`. For any other error, including a run
  killed by cancellation, it still parses whatever standard output there is and resolves
  with those locations. `DoFindReferences` therefore parses `Failed(stdout)` as well. The
  formatter rejects on any non-`ENOENT` error, whatever the output.
- The "not available" message of the formatter always names `goreturns`, even when
  another tool is configured. Messages are not modelled.
- `(.*)` cannot take `'\r'`, U+2028 or U+2029, because JavaScript's `.` does not
  match line terminators. On a line ending in `"\r"` the location still matches,
  because the pattern is not anchored at the end. A file name that contains a carriage
  return does not match.

## Model

| member | source | states |
|---|---|---|
| `GoReferences.CanonicalizeForWindows` | src/goReferences.ts:72-78 | a name starting with a lower-case drive letter, `:` and `\` comes back the same length, with every backslash turned into `/` and none left; any other name, an upper-case drive included, is returned unchanged |
| `GoReferences.ReplaceBackslashes` | src/goReferences.ts:76 | the global replace keeps the length and changes exactly the backslashes, position by position |
| `GoReferences.CanonicalizeIdempotent` | src/goReferences.ts:75-77 | canonicalising twice is the same as canonicalising once |
| `Text.SplitLines` | src/goReferences.ts:47 | `split('\n')` gives one more piece than there are newlines, and no piece holds a newline |
| `Text.JoinSplit` | src/goReferences.ts:47 | joining the pieces with `'\n'` gives the output back |
| `Text.SplitJoin` | src/goReferences.ts:47 | splitting lines joined with `'\n'` gives back those lines when none holds a newline |
| `Text.Decimal` | src/goReferences.ts:38 | `offset.toString()` is a non-empty string of ASCII digits, a single digit exactly for numbers below ten, with a leading `0` only for zero itself |
| `Text.DecimalRoundTrip` | src/goReferences.ts:56 | unary `+` on the digits that `toString` writes gives the number back |
| `ReferencePattern.DigitRun` | src/goReferences.ts:51 | the run of digits that `\d+` can take is all digits and stops before a non-digit or at the end |
| `ReferencePattern.GroupsSound` | src/goReferences.ts:51 | the captured groups are digit strings, and with `.`, `-`, `.`, `:` after them they spell the text that follows |
| `ReferencePattern.GroupsComplete` | src/goReferences.ts:51 | whenever the text has digit groups followed by those separators, exactly those groups are captured |
| `ReferencePattern.MatchAtComplete` | src/goReferences.ts:51 | if the pattern can match with `(.*)` taking a given prefix, trying that prefix finds exactly that match |
| `ReferencePattern.MatchLine` | src/goReferences.ts:51-52 | a non-null result of `exec` is a match of the pattern at the start of the line: its file part has no line terminator, its groups are digits, and its text is a prefix of the line |
| `ReferencePattern.MatchLineGreedy` | src/goReferences.ts:51 | when the pattern can match at all, `exec` matches, and its file part is at least as long as that of any match (greedy `(.*)`) |
| `ReferencePattern.MatchDeterminedByFile` | src/goReferences.ts:51-53 | two matches whose file parts have the same length are the same match: the four numbers follow from the file part |
| `ReferencePattern.MatchLineNone` | src/goReferences.ts:51-52 | `exec` gives `null` exactly when no match exists |
| `ReferencePattern.MatchHasColon` | src/goReferences.ts:51-52 | a line without a colon, the empty line among them, matches nothing |
| `GoReferences.PositionArgument` | src/goReferences.ts:38 | the query argument is `-pos=`, the file name and `:#`, followed by digits that read back as the byte offset |
| `GoReferences.LocationOf` | src/goReferences.ts:53-57 | a match becomes the file resolved against the directory, with the one-based start line, start column and end line each one less (so at least -1) and the end column unchanged (so at least 0) |
| `GoReferences.ParseLine` | src/goReferences.ts:51-52 | a line contributes at most one location; none exactly when no match of the pattern exists at all, and otherwise the location of the match `exec` finds |
| `GoReferences.ParseLocationsStep` | src/goReferences.ts:49-58 | one more iteration of the loop appends that line's location, if any, after those of the earlier lines |
| `GoReferences.ParseLineOfLongestMatch` | src/goReferences.ts:51-58 | a line that matches yields one location: the one built from the match whose file part is longest |
| `GoReferences.MatchRecordLine` | src/goReferences.ts:51 | on a record line whose description neither starts with a digit nor has a colon followed by a digit, `exec` captures exactly the record's file and numbers: the greedy `(.*)` cannot reach into the description |
| `GoReferences.ParseRecordLine` | src/goReferences.ts:51-57 | a record `file:L1.C1-L2.C2:description`, whose description neither starts with a digit nor has a colon followed by a digit, reads back as `resolve(cwd, file)` with range (L1-1, C1-1, L2-1, C2); the start column is decremented and the end column is not |
| `GoReferences.ParseLocations` | src/goReferences.ts:47-60 | there is at most one location per output line |
| `GoReferences.ParseLocationsAppend` | src/goReferences.ts:49-59 | parsing `a ++ b` gives the locations of `a` followed by those of `b`, so output order is kept |
| `GoReferences.ParseLocationsTrailingEmptyLine` | src/goReferences.ts:47-52 | the empty piece after a trailing newline adds no location |
| `GoReferences.CollectLocations` | src/goReferences.ts:48-60 | the loop that pushes one location per matching line produces exactly `ParseLocations` of the lines |
| `GoReferences.DoFindReferences` | src/goReferences.ts:23-64 | with no word under the cursor, nothing is run and the answer is `[]`; otherwise the tool gets exactly `-pos=<canonical name>:#<offset>` and `referrers`; the request never rejects; the answer is `null` exactly when the tool is missing; any other outcome gives the parsed locations of its output, resolved against the canonical name's directory |
| `GoFormat.FormatOutcome` | src/goFormat.ts:48-66 | `ENOENT` resolves to `null` and never rejects; any other error rejects with exactly "Cannot format due to syntax errors."; success gives exactly one edit, whose text is the output unchanged and whose range is (1, 1) to (line count, max column of the last line), whatever the output |
| `GoFormat.WholeDocumentSpansText` | src/goFormat.ts:56-65 | the edit's range is valid in the document and covers it from offset 0 to the end of its text |
| `GoFormat.FormatReplacesDocument` | src/goFormat.ts:53-66 | applying the success edit leaves exactly the tool's output as the document |
| `GoFormat.FormatFixedPoint` | src/goFormat.ts:53-66 | when the output equals the document's text, the edit's text is that text and applying it leaves the document unchanged |
| `GoFormat.FormattingSupport.constructor` | src/goFormat.ts:14 | a new provider runs `goreturns` |
| `GoFormat.FormattingSupport.OnConfigurationLoaded` | src/goFormat.ts:20-24 | a truthy `formatTool` replaces the command; an absent or empty setting keeps the current one |
| `GoFormat.FormattingSupport.ToolPath` | src/goFormat.ts:44 | the executable is `$GOPATH/bin/<formatCommand>` |
| `GoFormat.FormattingSupport.DoFormatDocument` | src/goFormat.ts:39-72 | the tool at `$GOPATH/bin/<formatCommand>` gets the file name as its only argument, and the request settles as `FormatOutcome` says |
| `GoFormat.NewConfiguredFormatter` | src/goFormat.ts:14-24 | once the configuration has arrived, the command is the truthy `formatTool` if there is one and `goreturns` otherwise |

## Left out

- Starting processes (`cp.execFile`), the callback and promise plumbing, and cancellation (`token.onCancellationRequested` and `process.kill()`) are operating-system I/O. A run appears only as its outcome, which is an input. A run killed by cancellation is whatever outcome the callback then receives.
- `vscode.workspace.saveAll` and `anyDirty` are editor glue, so they are not modelled. That includes the second format run that `formatDocument` starts when buffers are dirty.
- Informational messages and `installTool` are user-interface and installer side effects.
- `byteOffsetAt` and `getBinPath` are not part of this model. The byte offset and the `oracle` executable path are inputs, and UTF-8 offsets are not computed.
- Whether a word is under the cursor (`getWordRangeAtPosition`) is an input.
- `path.resolve`, `path.dirname`, `path.join` and `vscode.Uri.file` are host-library behaviour. `Paths` stands in for them on `/`-separated names. It does not normalise `.`, `..`, repeated or trailing separators, or Windows drive paths. A location's `uri` is the resolved path itself.
- GoFormat.FormattingSupport.DoFormatDocument: takes `GOPATH` as a string. An unset `GOPATH` makes `path.join` throw inside the promise executor, and that rejection is not modelled.
- GoReferences.DoFindReferences: `vscode.Range` throws on a negative line or character, for example when the tool prints line 0. The callback would turn that into a rejection. The model keeps plain integers and does not reject.
- Text.DecimalRoundTrip: unary `+` yields an IEEE double, so digit strings beyond 2^53 lose precision. The model reads them exactly.
- The configuration arrives asynchronously after construction. `OnConfigurationLoaded` is that callback, and calls made before it runs see `goreturns`.
- GoFormat.FormatOutcome: requires a valid document. A missing text model (`getModel` returning nothing) would make the callback throw, and that is not modelled.
- `Editor.ApplyEdit` stands in for the editor applying an edit to a document with `'\n'` line breaks. The editor's own end-of-line handling is not modelled.
- Strings are sequences of Unicode scalar values, not UTF-16 code units.
