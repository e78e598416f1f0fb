# dson2csv in Dafny

A model of the core of dson2csv, a converter from MongoDB-style relaxed JSON
("DSON") to CSV. The model covers three parts:

- the structural parser of main.go: `consumeObject`, `consumeArray`,
  `isIgnoreToken` and the document loop of `main`;
- the value-returning string stack of internal/stack.go;
- `MapToCSV` of internal/writer/csv.go.

The input is the token sequence that Go's `text/scanner` produces. The
parser reads it with a single cursor shared by every consumer:
`toks[i]` is the token just scanned, and `i >= |toks|` is end of input.

Both consume loops scan the next token *before* they test whether their
state stack has emptied. So a consumer that succeeds returns with the cursor
one token past its closing bracket, and the caller's next scan passes over
that token without looking at it. `Parser.Resume` names two modes:

- `ScanAhead` is the code as written.
- `StopAtCloser` is the corrected loop, which returns with the cursor on the
  closing bracket.

Every parser member that moves the cursor takes the mode as a parameter. Two consequences of
`ScanAhead` are recorded under "## Findings".

What `consumeObject` should compute is stated independently in `Encoding`:

- A relaxed-JSON object is a tree of `Field`s.
- `Encode` turns such a tree into tokens.
- `Flatten` gives the expected document. It has one entry per scalar or
  array leaf, under the dot-joined chain of unquoted keys.
- An array value may hold any bracket-balanced run of tokens: plain items,
  objects, nested arrays and wrapper calls. Its entry is the run without
  its skipped tokens, between brackets and space-joined
  (`ArrayValueText`).

The main theorem, `RoundTrip.ConsumeObjectRoundTrip`, proves that the parser
returns exactly `Flatten(fs)` on `Encode(fs)`, in both modes.
`Streams.DocumentsRoundTrip` lifts this to the document loop.

Modules, one per file:

| file | module | models |
|---|---|---|
| wrappers.dfy | Wrappers | `Result` and `Option` |
| stack.dfy | Stacks | internal/stack.go |
| tokens.dfy | Tokens | `isIgnoreToken`; `strings.Trim` with a one-character cutset; `strings.Join` |
| parser.dfy | Parser | `consumeArray`, `consumeObject` |
| invariants.dfy | ParserInvariants | loop invariants of `consumeObject`; which errors can happen |
| arrays.dfy | ArraySpec | a stack-free description of `consumeArray` |
| driver.dfy | Driver | the document loop of `main` |
| encoding.dfy | Encoding | the reference encoder and flattening |
| roundtrip.dfy | RoundTrip | `consumeObject` against the reference |
| nesting.dfy | Nesting | bracket balance; arrays of objects |
| streams.dfy | Streams | the document loop on a stream of objects |
| table.dfy | Table | `MapToCSV` |
| samples.dfy | Samples | the inputs of main_test.go |
| findings.dfy | Findings | the two findings below |

In three places the model follows the code where a reader might expect
otherwise:

- `}` pops the parse-state stack without checking that the popped marker is
  an object marker (main.go:123). Inside `consumeArray` any `}` or `]`
  closes any `{` or `[` (main.go:190-203); in `consumeObject` a `]` is
  always an error (main.go:137-138).
- `MapToCSV` neither sorts the headers nor pads absent cells. It also does
  not truncate long cells. The header order is whatever Go's map iteration
  yields (csv.go:24-26). Empty and absent values are dropped from a row
  rather than written as empty cells (csv.go:31-33).
- The error of `consumeArray` is not checked by `consumeObject`
  (main.go:136). The token becomes `""` and the cursor stays where
  `consumeArray` left it; `ParserInvariants.UnclosedArrayFailsObject` shows
  that the object still fails at end of input.

## Model

| member | source | states |
|---|---|---|
| Stacks.Push | internal/stack.go:7-9 | pushing grows the stack by exactly one |
| Stacks.PushKeeps | internal/stack.go:7-9 | after a push, the old stack is the prefix and the new value is on top |
| Stacks.Pop | internal/stack.go:11-17 | pop fails exactly on the empty stack and otherwise shortens it by one |
| Stacks.Top | internal/stack.go:19-25 | there is no top exactly when the stack is empty; otherwise the top is the last element |
| Stacks.Peek | internal/stack.go:19-25 | peek on an empty stack is `""`; otherwise it is the last element |
| Stacks.PushThenPop | internal/stack.go:7-17 | popping right after a push restores the stack; the pushed value is on top |
| Stacks.PushThenPeek | internal/stack.go:7-25 | peeking right after a push sees the pushed value |
| Stacks.PopThenPush | internal/stack.go:11-25 | on a non-empty stack, pop and top succeed, and pushing the top back onto the popped stack restores it |
| Tokens.IgnoredTokensAreNotStructural | main.go:215-233 | no skipped token is a bracket, a colon or a comma, so skipping never hides structure |
| Tokens.TrimLeftMeaning | main.go:142 | left trimming keeps a suffix, drops only cutset characters, and leaves no cutset character in front |
| Tokens.TrimRightMeaning | main.go:142 | right trimming keeps a prefix, drops only cutset characters, and leaves no cutset character at the end |
| Tokens.TrimIsMiddle | main.go:142 | `Trim` keeps exactly the middle slice between a run of cutset characters on each side |
| Tokens.TrimIdempotent | main.go:148 | trimming twice gives the same text as trimming once |
| Tokens.TrimUnchanged | main.go:148 | a text that neither starts nor ends with the cutset character is left unchanged |
| Tokens.UnquoteEnds | main.go:148 | an unquoted key or value neither starts nor ends with a single quote |
| Tokens.UnquoteUnchanged | main.go:148 | a text with no quote at either end unquotes to itself |
| Tokens.UnquoteDouble | main.go:148 | a double-quoted literal whose contents are non-empty and neither start nor end with a quote unquotes to those contents |
| Tokens.UnquoteSingle | main.go:148 | a single-quoted literal whose contents are non-empty and neither start nor end with a quote unquotes to those contents |
| Tokens.JoinEnds | main.go:212 | a joined text starts with the first part and ends with the last |
| Tokens.JoinAppend | main.go:212 | joining two non-empty runs puts one separator between their joined texts |
| Parser.ArrayLoop | main.go:179-210 | the cursor only moves forward and stays within the input; the only errors are end of input and an underflowing close |
| Parser.ConsumeArray | main.go:168-171 | `consumeArray` fails with the non-array error exactly when the current token is not `[` |
| Parser.ArrayToken | main.go:134-136 | an array inside an object always moves the cursor past its `[` |
| Parser.ArrayStepMeaning | main.go:189-204 | one step of `consumeArray`'s stack fails exactly on a closer with nothing open, naming the closer's kind; an opener adds a level, a closer removes the top one, and the levels below are kept |
| Parser.DispatchMeaning | main.go:119-139 | in the `switch` of `consumeObject` only `}` can fail, with the object error when nothing is open; `{` opens one level without touching the path; the document and previous token are untouched |
| Parser.SettleMeaning | main.go:141-158 | the colon and value handling fails only with the key/value error; otherwise the token becomes the previous token and no document key is removed |
| Parser.StepMeaning | main.go:112-158 | one iteration fails only with the object or key/value error; otherwise the token becomes the previous token and no document key is removed |
| Parser.Iterate | main.go:112-139 | one iteration moves the cursor forward within the input and fails only with the errors of `consumeObject` |
| Parser.Continue | main.go:141-159 | the end of an iteration moves the cursor forward within the input and fails only with the errors of `consumeObject` |
| Parser.ObjectLoop | main.go:107-163 | the cursor only moves forward; the only errors are end of input, a stray close and a key/value format error |
| Parser.ConsumeObject | main.go:93-96 | `consumeObject` fails with the non-object error exactly when the current token is not `{` |
| ParserInvariants.DispatchKeepsBalance | main.go:119-139 | on a balanced frame with an open object, the switch never fails and keeps the invariant; only `}` can empty the stack |
| ParserInvariants.CloseKeepsBalance | main.go:122-133 | `}` never fails on a balanced frame; it pops the object's marker and, when the object was a key's value, that key's marker and its path segment; the document and previous token stay the same |
| ParserInvariants.SettleKeepsBalance | main.go:141-158 | the `:` and value handling never fails, keeps the invariant, and never empties or fills the stack |
| ParserInvariants.StepKeepsBalance | main.go:119-158 | a whole iteration keeps the invariant, so the format errors of main.go:124-154 cannot occur |
| ParserInvariants.SettleWritesOnlyAfterColon | main.go:141-158 | a token changes the document only right after the `:` of an open key; it is then stored unquoted under the dot-joined path and that key is closed; a `:` after a `:` opens the key `:` and writes `:` under it at once, and any other `:` only opens the key named by the previous token |
| ParserInvariants.StrayArrayCloseFails | main.go:137-138 | a `]` read by `consumeObject` itself fails where it stands |
| ParserInvariants.UnclosedArrayFailsObject | main.go:134-163 | an unterminated array inside an object fails the object at end of input, although the array's error is not checked |
| ParserInvariants.ObjectLoopOutcome | main.go:107-163 | every run of the loop either fails with a stray `]` or end of input, or succeeds next to the `}` that emptied the stack |
| ParserInvariants.IterateOutcome | main.go:112-139 | the same outcome, for one iteration and the rest of the loop |
| ParserInvariants.ContinueOutcome | main.go:141-159 | the same outcome, for the end of an iteration and the rest of the loop |
| ParserInvariants.ConsumeObjectOutcome | main.go:93-166 | the only failures are a bad first token, a stray `]` and end of input; success ends next to a `}` |
| ArraySpec.ArrayStepDepth | main.go:190-203 | while inside the array, each non-skipped token moves the depth by its bracket delta and never underflows |
| ArraySpec.ArrayLoopCloses | main.go:179-206 | when the depth first returns to zero at `toks[k]`, the loop returns the kept tokens up to `toks[k]`, space-joined, with the cursor next to `toks[k]` |
| ArraySpec.ArrayLoopUnclosed | main.go:179-210 | when the depth never returns to zero, the loop fails at end of input |
| ArraySpec.ConsumeArrayMeaning | main.go:168-213 | `consumeArray` returns `[` plus every non-skipped token through the closer where the depth first returns to zero; if no token closes the array, it fails at end of input |
| ArraySpec.ConsumeArrayCloses | main.go:168-213 | an array closed at `toks[k]` yields its text, with the cursor next to `toks[k]` |
| RoundTrip.SkipStep | main.go:114-116 | a skipped token changes neither the state nor the previous token |
| RoundTrip.PlainStep | main.go:141-158 | a plain token while an object awaits its next key only becomes the previous token |
| RoundTrip.ColonStep | main.go:141-144 | a `:` opens a key named by the unquoted previous token |
| RoundTrip.ValueStep | main.go:146-156 | a scalar right after a `:` is stored unquoted under the dot-joined path, and the key is closed |
| RoundTrip.OpenStep | main.go:120-121 | a `{` opens a nested object |
| RoundTrip.CloseValueStep | main.go:122-133 | the `}` of an object that was a key's value closes both, and writes no entry for that key |
| RoundTrip.ArrayValueStep | main.go:134-136 | an array after a `:` is consumed whole, and its text is stored under the path |
| RoundTrip.FinalCloseStep | main.go:107-110 | the outer `}` ends the loop with the document; as written the cursor ends one past it |
| RoundTrip.PlainArrayConsumed | main.go:168-213 | an array of plain items yields `[ items ]`, space-joined, with the cursor next to its `]` |
| RoundTrip.ArrayValueRun | main.go:134-136 | an array value with a balanced body is stored as `consumeArray` rebuilds it; as written, the token after its `]` is passed over |
| RoundTrip.FieldsRun | main.go:107-159 | a well-formed field list adds its flattened fields and leaves the state and path as they were |
| RoundTrip.ConsumeObjectRoundTrip | main.go:93-166 | on the tokens of any well-formed object (plain keys and scalars, wrapper calls, nested objects, and arrays with any bracket-balanced body, including objects, nested arrays and wrapper calls), `consumeObject` returns exactly its flattened document, with the cursor next to the object's `}` |
| Nesting.EncodeBalanced | main.go:190-203 | every encoded object is bracket-balanced: no prefix closes more than it opens, and the whole ends at depth zero |
| Nesting.BalancedArrayCloses | main.go:179-203 | an array whose body is balanced closes at the `]` right after the body |
| Nesting.BalancedArrayConsumed | main.go:168-213 | an array with a balanced body and no skipped tokens, objects included, is returned whole, space-joined |
| Nesting.ArrayValueConsumed | main.go:168-213 | an array with a balanced body, skipped tokens allowed, is returned without its skipped tokens, space-joined, with the cursor next to its `]`; that text is not `:` and unquoting leaves it alone |
| Driver.Collect | main.go:51-62 | the loop only appends documents, at most one per remaining token, and fails only with a stray `]` or end of input |
| Driver.Documents | main.go:51-62 | there are at most as many documents as tokens, and the only errors are a stray `]` and end of input |
| Driver.CollectWithoutObjects | main.go:51-62 | tokens with no `{` among them add no document and cannot fail |
| Driver.DocumentsWithoutObjects | main.go:51-62 | a stream without `{` has no documents |
| Streams.CollectStream | main.go:51-62 | on a stream of well-formed objects, the loop appends each object's flattened document, in order |
| Streams.DocumentsRoundTrip | main.go:51-62 | `main` collects one document per object, in input order; as written, commas between the objects are required |
| Table.KeysOfMeaning | internal/writer/csv.go:13-19 | a key is collected exactly when some row has it |
| Table.Cells | internal/writer/csv.go:29-34 | a row has at most one cell per header, and no cell is empty |
| Table.CellsAppend | internal/writer/csv.go:29-34 | the cells for a split header list are the cells of each part, in order |
| Table.CellsSingle | internal/writer/csv.go:31-33 | a header contributes a cell exactly when its value is present and non-empty |
| Table.CellsAligned | internal/writer/csv.go:29-34 | when every header has a non-empty value, cell `i` is the value under header `i` |
| Table.CellsSkipAbsent | internal/writer/csv.go:29-34 | a header whose value is absent or empty contributes nothing: the cells are those of the header list without it, so later values move one column left |
| Table.CellsShiftLeft | internal/writer/csv.go:29-34 | for example, with headers `a, b` and `a` missing, `b`'s value lands in column 0 |
| Table.CollectKeys | internal/writer/csv.go:11-19 | the header set is the union of the rows' keys |
| Table.Enumerate | internal/writer/csv.go:24-26 | the header list has each key exactly once, in any order |
| Table.BuildRows | internal/writer/csv.go:28-36 | there is one cell list per row, in row order, built from that row alone |
| Table.MapToCSV | internal/writer/csv.go:10-39 | headers have no duplicates and are exactly the keys of all rows; there is one data row per input row, holding that row's non-empty values in header order; so empty input gives empty headers and data |
| Samples.Record | main_test.go:10-43 | the record with `ObjectId`, `ISODate` and `NumberLong` wrappers, a nested name and a trailing comma yields exactly the six expected entries |
| Samples.FlatObject | main_test.go:45-65 | `{ name : { first: "Alan", last: "Turing" } }` yields exactly `name.first` and `name.last` |
| Samples.Numbers | main_test.go:67-88 | `[1, 2, 3]`, on one line or several, yields `[ 1 , 2 , 3 ]` |
| Samples.People | main_test.go:90-120 | an array of two nested objects is returned whole, as its tokens joined by single spaces |
| Findings.ArrayBeforeCloseAsWritten | main.go:179-182 | as written, an object whose last value is an array never closes, and fails at end of input |
| Findings.ArrayBeforeCloseCorrected | main.go:107-110 | when the loops stop at their closers, that object closes, with the array's text under its key |
| Findings.ArrayThenCloseAsWritten | main.go:179-182 | `{ a : [ 1 ] }` fails as written |
| Findings.ArrayThenCloseCorrected | main.go:107-110 | `{ a : [ 1 ] }` yields `a` = `[ 1 ]` when the loops stop at their closers |
| Findings.AdjacentAsWritten | main.go:51-55 | as written, of two objects with nothing between them only the first is read when the second holds no nested object; otherwise the second's first nested object is read as a document |
| Findings.AdjacentCorrected | main.go:51-55 | when the loops stop at their closers, both objects become documents, in order |
| Findings.TwoObjectsAsWritten | main.go:51-55 | `{a:1}{b:2}` yields one document as written |
| Findings.TwoObjectsCorrected | main.go:51-55 | `{a:1}{b:2}` yields both documents when the loops stop at their closers |

## Left out

- Tokenization by Go's `text/scanner` (character classes, string and character literals, comments, error output) is not modelled. It is a foreign library, so tokens are an input sequence.
- File and CSV I/O in `main` is not modelled: the argument check, opening and creating files, buffering, `encoding/csv` escaping and flushing, and `log.Fatal` (main.go:28-50, 64-91). A parse error is the `Failure` that `Documents` returns.
- The `scanner.Scanner` parameters are passed by value (main.go:93, 168). Copying a scanner duplicates its buffer while sharing its reader, which is an artifact of Go. The model uses the single shared cursor that the tests assume: they pass `&s`. With the by-value copies of main.go, the scans a callee makes in input already buffered do not move its caller's position, so the two findings below would read differently; they are stated for the shared cursor.
- Slice aliasing of Go's `append` in `Stack` is not modelled. Stacks are immutable sequences.
- `MapToCSV`'s header order comes from `reflect.MapKeys` and is unspecified. `Table.Enumerate` picks each next header with `:|`, so its contract holds for every order.
- The "stack is empty" error of `Pop` carries no text in the model. The stack's error is never shown to users; the parser maps each failed pop to its own message.
- Samples.People: states the expected text as the array's tokens joined by single spaces, not as the literal string of main_test.go:106. The two are the same text, but the literal comparison is too costly for the prover.
- Streams.DocumentsRoundTrip: as written, requires a comma after every object. Without one, the loop skips the next object's `{` (see "## Findings").
- RoundTrip.ConsumeObjectRoundTrip: as written, requires a comma after every array value. Without one, the loop skips the token after the `]` (see "## Findings"). Keys and scalar values are single tokens that are neither structural nor skipped; array bodies must be bracket-balanced.
- Cell-size truncation, lexicographic header sorting and padding of absent cells are not modelled: none of them exists in the code.

## Findings

| source | as written | input that shows it | evidently intended | confidence | as-written member | corrected member |
|---|---|---|---|---|---|---|
| main.go:107-110, 179-182 | With the scanner position shared between the callers and the callees, as main_test.go passes it (`&s`): `consumeArray` returns after scanning the token that follows its `]`. `consumeObject` then scans again, so that token is never processed; when it is the object's `}`, the object never closes | with the shared scanner position, `{ a : [ 1 ] }` fails with "reached end of file before closing object" | the object closes and yields `a` = `[ 1 ]` | not executed | Findings.ArrayBeforeCloseAsWritten | Findings.ArrayBeforeCloseCorrected |
| main.go:51-55, 107-110 | With the scanner position shared between `main` and `consumeObject`: `consumeObject` returns after scanning the token that follows its `}`. The loop of `main` then scans again, so the `{` of an object that follows directly is passed over | with the shared scanner position, `{a:1}{b:2}` yields only the document of `{a:1}` | both objects become documents | not executed | Findings.AdjacentAsWritten | Findings.AdjacentCorrected |
