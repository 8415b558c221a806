# DFTB+ optimization service: a Dafny model of its Go core

This project models the Go service that accepts a crystal structure as a
base64-encoded CIF file, turns it into DFTB+ input files, runs the DFTB+
engine in a per-request directory and answers with an optimized structure.
Three parts of the Go code are modelled:

- **The CIF reader.** `go-service/internal/parser/cif_parser.go` is modelled
  in modules `CifParser`, `CifConvert` and `CifValidate`. It covers:
  - the line-driven scanner loop of `ParseFromString` and `ParseFromBase64`;
  - the loop-row mapping `processLoopData` with `containsAllHeaders`;
  - the conversion `ToDFTBInput` into engine input;
  - the substring screen `ValidateCIFContent`.
- **The job runner.** `go-service/internal/dftb/runner.go` is modelled in
  modules `DftbRender` and `DftbRunner`. It covers:
  - the three text generators (`dftb_in.hsd`, `geometry.gen`, `optimized.cif`);
  - request validation and status derivation;
  - the engine run's outcome classification;
  - `RunOptimization`'s chain of stages with early returns.
- **The server checks.** `go-service/cmd/server/main.go` is modelled in module
  `Server`. It covers `validateConfig` and the selection and counting rule of
  `cleanupOldFiles`.

`GoStrings` holds the parts of Go's `strings`, `strconv` and `bufio` the
code relies on: `TrimSpace`, `HasPrefix`, `Contains`, `SplitN(.., " ", 2)`,
`Fields`, `Join`, `%d` and the line scanner. `Types` mirrors
`go-service/internal/types/types.go`.

Where Go loops and updates variables, the model does the same. A Dafny
method carries the loop and its invariants, and its `ensures` ties the
result to a specification function. Properties are proved as lemmas about
those functions. Files and directories are the state of the
`DftbRunner.Workspace` object. Everything the operating system decides is
part of the `DftbRunner.Environment` value:
- whether mkdir, a write or a read fails;
- whether the engine executable exists;
- how the engine run ends and what output it leaves;
- base64 decoding and encoding;
- `strconv.ParseFloat` and the `%f` formats;
- today's date and Go's map iteration order.

The model follows the code where it departs from what a reader might
expect. Each of these is proved:

- **Loop rows never reach the structure.** Inside a loop every trimmed
  non-empty line is either a header or a row, so the "end of loop" branch
  never runs and `processLoopData` is never called. A successful parse
  therefore has no atom sites and no symmetry operators
  (`CifParser.ParsedHasNoAtomSites`). The row mapping itself is modelled
  and proved on its own (`CifConvert.ProcessLoopData`).
- **A missing `data_` line is not a parser error.** Text without a `data_`
  line either dereferences the nil block (a panic, `NilBlockPanic`) or
  yields the empty, nameless CIF (`CifParser.WithoutDataLineNameIsEmpty`).
  It is then rejected only by `ToDFTBInput`.
- **The screen and the parser disagree.** `ValidateCIFContent` only looks
  for substrings. A comment line can pass it and still parse to nothing,
  and a plain `key value` line that passes it makes the parser panic
  (`CifValidate.CommentPassesScreen`, `CifValidate.ScreenedTextMayPanic`).
- **`geometry.gen` labels atom `i` with element number `i mod |elements|`,
  not with its own type.** Two atoms of type `a` followed by one of type
  `b` give the second atom the label `b` (`DftbRender.GeometryMislabelsAtoms`).
- **A request whose structure fails to parse stays `running`.** No
  `dftb_out.hsd` is ever written for it, so `GetStatus` keeps reporting
  `running` (`DftbRunner.ParseFailureShowsRunning`). No path of
  `RunOptimization` writes `error.log`, so a failed run is never reported
  as `error` (`DftbRunner.StatusAfterRun`).
- **The engine's own error is prefixed twice.** `runDFTBCalculation` adds
  `DFTB+ calculation failed: ` and `RunOptimization` adds the same prefix
  again (`DftbRunner.EngineErrorPrefixedTwice`).

One reading is taken where the code cannot be compiled as written.
`cif_parser.go` lines 55 and 149 assign `*currentDataBlock`, a whole
`CIFFile`, to `cif.DataBlock`, the anonymous struct field declared in
`types.go` lines 72-78. Go rejects that assignment. The model reads both
lines as copying the current block's `DataBlock` into the result
(`CifParser.DataLineStep`, `CifParser.Finish`).

`DftbRunner.Pipeline` is stated for any `Renderers`, the three functions
that produce the texts written to `dftb_in.hsd`, `geometry.gen` and
`optimized.cif`. `RunOptimization` is proved against the service's own,
`DftbRunner.ServiceRenderers`. Those texts are specified and proved in
`DftbRender`.

## Model

Source paths are relative to the repository root.

| member | source | states |
|---|---|---|
| GoStrings.SplitAtFirstSpace | go-service/internal/parser/cif_parser.go:102 | `SplitN(line, " ", 2)` gives two parts exactly when the line holds a space; the line is the first part, a space and the rest, and the first part holds no space |
| GoStrings.DecimalRoundTrip | go-service/internal/dftb/runner.go:172 | the `%d` rendering of a count reads back as that count |
| CifParser.ParseFromString | go-service/internal/parser/cif_parser.go:34-157 | the scanner loop over the content's lines yields `Parse` of those lines, and never a Go error |
| CifParser.ScanLine | go-service/internal/parser/cif_parser.go:43-145 | one iteration of the loop, updating the current block in place, panics exactly when `Step` says so and otherwise reaches `Step`'s state |
| CifParser.ApplyKeyword | go-service/internal/parser/cif_parser.go:120-144 | a `_` line outside a loop sets the cell entry named by a recognised key whose value parses, and panics on a nil block exactly then |
| CifParser.ParseFromBase64 | go-service/internal/parser/cif_parser.go:23-31 | a decoding failure is the error `failed to decode base64 content: ...`; otherwise the parse of the decoded text |
| CifParser.StepCases | go-service/internal/parser/cif_parser.go:44-144 | a line is handled by the first matching test in source order: blank or comment, `data_`, `loop_`, inside a loop, `key value`, `_` tag |
| CifParser.DataLineStep | go-service/internal/parser/cif_parser.go:52-68 | a `data_` line starts a fresh block named by the rest of the line, leaves any loop and drops its headers |
| CifParser.TagLineStep | go-service/internal/parser/cif_parser.go:120-144 | outside a loop a `_` line is handled by the cell-key switch |
| CifParser.SkippedLinesIgnored | go-service/internal/parser/cif_parser.go:46-49 | removing every blank and comment line leaves the parse unchanged |
| CifParser.LastBlockWins | go-service/internal/parser/cif_parser.go:52-150 | the result depends only on the last `data_` line's name and the lines after it; nothing of an earlier block survives |
| CifParser.NameFromLastDataLine | go-service/internal/parser/cif_parser.go:52-150 | a successful parse's block name is the text after `data_` on the last `data_` line |
| CifParser.WithoutDataLineNameIsEmpty | go-service/internal/parser/cif_parser.go:37-156 | without a `data_` line the parse either panics on the nil block or returns the empty, nameless CIF, never an error |
| CifParser.NoSpaceNeverPanics | go-service/internal/parser/cif_parser.go:101-144 | lines without a space never reach the nil-block dereference |
| CifParser.NoDataNoPairsGivesEmptyCif | go-service/internal/parser/cif_parser.go:34-156 | text with no `data_` line and no line holding a space parses to the empty, nameless CIF |
| CifParser.RunKeepsShape | go-service/internal/parser/cif_parser.go:43-145 | every state the loop reaches has no atom sites and no symmetry operators, and only the six recognised cell keys |
| CifParser.ParsedHasNoAtomSites | go-service/internal/parser/cif_parser.go:78-98 | a successful parse has no atom sites or symmetry operators, and cell maps holding only recognised keys: the end-of-loop branch is unreachable |
| CifParser.LoopStepHeaders | go-service/internal/parser/cif_parser.go:78-92 | inside a loop a `_` line is appended to the headers, and any other line leaves block, loop flag and headers alone |
| CifParser.LoopCollectsHeaders | go-service/internal/parser/cif_parser.go:78-98 | up to the next `data_` or `loop_` line, every `_` line (cell lines included) becomes a header, no cell value is set and nothing panics |
| CifParser.CellLineEffect | go-service/internal/parser/cif_parser.go:120-144 | outside a loop a recognised cell line sets its key in the current block exactly when the value parses; before any `data_` line a parseable value dereferences the nil block and panics; any other key changes nothing |
| CifParser.MetadataLineEffect | go-service/internal/parser/cif_parser.go:101-117 | a non-`_` line with a space records the text before the first space as a metadata key with the trimmed, unquoted rest; before any block it panics |
| CifConvert.ContainsAllHeaders | go-service/internal/parser/cif_parser.go:245-258 | true exactly when every required header occurs among the headers |
| CifConvert.ProcessLoopData | go-service/internal/parser/cif_parser.go:160-242 | the block gains one atom site per row when all five atom-site headers are present, and one symmetry operator per row when all three symmetry headers are |
| CifConvert.AppendAtomRows | go-service/internal/parser/cif_parser.go:171-208 | the atom-site pass appends the site of each row, in row order |
| CifConvert.AppendSymmetryRows | go-service/internal/parser/cif_parser.go:219-240 | the symmetry pass appends the operator of each row, in row order |
| CifConvert.ReadAtomSite | go-service/internal/parser/cif_parser.go:172-205 | the header switch over one row yields the site read column by column |
| CifConvert.ReadSymmetry | go-service/internal/parser/cif_parser.go:220-237 | the header switch over one row yields the operator read column by column |
| CifConvert.FillAtomByColumns | go-service/internal/parser/cif_parser.go:174-205 | each field comes from the last column carrying its header that the row reaches; a number only from a cell that parses |
| CifConvert.AtomFieldByPosition | go-service/internal/parser/cif_parser.go:174-205 | with distinct headers each field is the trimmed cell under its header, or that cell parsed, or 0 when it does not parse |
| CifConvert.ColumnAbsent | go-service/internal/parser/cif_parser.go:175-177 | a field with no column within the row keeps its zero value |
| CifConvert.FillSymmetryByColumns | go-service/internal/parser/cif_parser.go:222-237 | each axis is the cell of the last column naming it, or empty |
| CifConvert.LoopRecordsShape | go-service/internal/parser/cif_parser.go:160-242 | a loop with both header sets feeds both lists, and nothing else of the block changes |
| CifConvert.DistinctFirstOccurrences | go-service/internal/parser/cif_parser.go:289-294 | the element list holds each type symbol exactly once, ordered by first appearance |
| CifConvert.Convert | go-service/internal/parser/cif_parser.go:261-264 | conversion fails exactly for a nil CIF or a nameless block |
| CifConvert.ConvertedInput | go-service/internal/parser/cif_parser.go:266-313 | the input holds each type symbol once, one coordinate per site with the fractional coordinates scaled per axis, the diagonal lattice, the method, forces on and the threshold |
| CifConvert.ConvertExample | go-service/internal/parser/cif_parser.go:272-301 | a cubic cell of side 10 with two sites of one element at (0,0,0) and (0.5,0.5,0) gives that element once and coordinates (0,0,0) and (5,5,0) |
| CifConvert.ToDftbInput | go-service/internal/parser/cif_parser.go:261-314 | the seen-map loop over the sites computes `Convert` |
| CifValidate.ValidateCifContent | go-service/internal/parser/cif_parser.go:343-357 | nil exactly when the text contains `data_`, a cell marker and an atom-site marker; otherwise one of the three messages |
| CifValidate.ValidateCifContentOrder | go-service/internal/parser/cif_parser.go:343-357 | each message is given exactly when its own marker is missing and every earlier one is present: the data block, then the cell, then the atom sites |
| CifValidate.NoMarkerNoDataLines | go-service/internal/parser/cif_parser.go:344-346 | text without `data_` has no line the parser reads as a block declaration |
| CifValidate.RejectedForDataBlockNeverConverts | go-service/internal/parser/cif_parser.go:343-346 | text rejected for a missing data block would either panic the parser or parse to a CIF the converter rejects |
| CifValidate.ScreenPasses | go-service/internal/parser/cif_parser.go:343-357 | any text holding `data_`, `_cell_length_a` and `loop_` passes the screen, whatever surrounds them |
| CifValidate.CommentLineParsesEmpty | go-service/internal/parser/cif_parser.go:46-49 | a text that is one comment line parses to the empty, nameless CIF |
| CifValidate.PlainLinePanics | go-service/internal/parser/cif_parser.go:101-114 | a text that is one plain `key value` line dereferences the nil block |
| CifValidate.PlainStepPanics | go-service/internal/parser/cif_parser.go:101-114 | before any `data_` line, a trimmed `key value` line not starting with `#`, `_`, `d` or `l` dereferences the nil block |
| CifValidate.CommentPassesScreen | go-service/internal/parser/cif_parser.go:343-357 | a comment line carrying all three markers passes the screen, yet parses to a CIF the converter rejects |
| CifValidate.ScreenedTextMayPanic | go-service/internal/parser/cif_parser.go:343-357 | a plain line carrying all three markers passes the screen and makes the parser panic |
| DftbRender.ShellChoice | go-service/internal/dftb/runner.go:127-138 | only `H` gets shell `s`, only Si, P, S and Cl get `d`, every other element `p` |
| DftbRender.AngularMomentumLines | go-service/internal/dftb/runner.go:127-138 | one `MaxAngularMomentum` line per element, in the elements' order |
| DftbRender.GenerateDftbInputContent | go-service/internal/dftb/runner.go:116-165 | the builder loop produces exactly the lines of `dftb_in.hsd` |
| DftbRender.InputNamesMethodAndElements | go-service/internal/dftb/runner.go:123-140 | the method follows `Hamiltonian = ` verbatim, and the `MaxAngularMomentum` block holds exactly one line per element before it closes |
| DftbRender.ForcesLineIffForces | go-service/internal/dftb/runner.go:151-157 | `CalculateForces = Yes` appears exactly when forces are requested |
| DftbRender.CoordinateLinesLabels | go-service/internal/dftb/runner.go:178-182 | one line per atom, atom `i` labelled with element `i mod |elements|` |
| DftbRender.GenerateGeometryContent | go-service/internal/dftb/runner.go:168-185 | the builder loop produces exactly the lines of `geometry.gen` |
| DftbRender.GeometryHeaderReadsBack | go-service/internal/dftb/runner.go:172 | the header line reads back as the atom count and the flag `F`, periodic or not |
| DftbRender.GeometryAtomLines | go-service/internal/dftb/runner.go:178-182 | the file has the two header lines and then one line per atom, in order |
| DftbRender.ConvertedInputRenders | go-service/internal/dftb/runner.go:179 | a converted input with atoms has elements, so the modulo never divides by zero |
| DftbRender.GeometryMislabelsAtoms | go-service/internal/dftb/runner.go:178-181 | sites of types a, a, b give elements [a, b] and the second atom, of type a, is labelled b |
| DftbRender.OptimizedRows | go-service/internal/dftb/runner.go:305-316 | one row per atom, in order |
| DftbRender.OptimizedRowsShift | go-service/internal/dftb/runner.go:305-316 | each row keeps label and type, moves by 0.001·(i+1), (i+2), (i+3), and has a non-zero displacement parameter, a non-zero one kept as is |
| DftbRender.RowLines | go-service/internal/dftb/runner.go:317-318 | one formatted line per row, in order |
| DftbRender.CellLinesEnumerate | go-service/internal/dftb/runner.go:287-293 | with an order listing every key once, as Go's `range` does, there is one line per map entry, line `i` is the `key value` line of key `i`, and every entry's line is present |
| DftbRender.CellLinesCount | go-service/internal/dftb/runner.go:287-293 | with an order free of duplicates, the number of cell lines is the number of listed keys that the map holds |
| DftbRender.OptimizedCifLayout | go-service/internal/dftb/runner.go:280-302 | the first line is `data_<name>_optimized`; after the five header lines come the cell-length lines, then the cell-angle lines, then the atom-site loop head, then the shifted row of each atom in order |
| DftbRender.OptimizedAtomRows | go-service/internal/dftb/runner.go:305-319 | the row loop produces the formatted optimized rows |
| DftbRunner.OptimizedCifCells | go-service/internal/dftb/runner.go:287-293 | under Go's map iteration, `optimized.cif` has one cell line per cell length and per cell angle of the parsed block, and every entry's line among them |
| DftbRender.WriteCellLines | go-service/internal/dftb/runner.go:287-293 | the map loop produces one line per present key, in the given order |
| DftbRender.GenerateOptimizedCifContent | go-service/internal/dftb/runner.go:278-319 | the builder produces exactly the lines of `optimized.cif` |
| DftbRunner.Workspace.MkdirAll | go-service/internal/dftb/runner.go:35-38 | on success the request directory exists; on failure nothing changes |
| DftbRunner.Workspace.WriteFile | go-service/internal/dftb/runner.go:100-102 | on success the file holds the content; on failure nothing changes |
| DftbRunner.Workspace.ReadFile | go-service/internal/dftb/runner.go:231-234 | the file's content, or the read error, or does-not-exist |
| DftbRunner.Workspace.LaunchEngine | go-service/internal/dftb/runner.go:195-205 | the engine's output file, when it leaves one, is now in the request directory |
| DftbRunner.ValidateRequest | go-service/internal/dftb/runner.go:340-358 | a rejection is one of the four messages |
| DftbRunner.ValidRequestIff | go-service/internal/dftb/runner.go:340-358 | a request passes exactly when it has an id and a structure, names one of the two methods and a positive threshold; each of the four messages is given exactly when its check fails and the earlier ones pass |
| DftbRunner.RejectedRequests | go-service/internal/dftb/runner.go:349-355 | an unknown method and a zero threshold are rejected with their messages |
| DftbRunner.GetStatus | go-service/internal/dftb/runner.go:361-382 | `not_found`, `running`, `error` and `completed` each exactly under its condition on the directory, `dftb_out.hsd` and `error.log` |
| DftbRunner.ErrorResponse | go-service/internal/dftb/runner.go:331-337 | an `error` response for the id with the message, no record and no structure |
| DftbRunner.GenerateInputFiles | go-service/internal/dftb/runner.go:95-113 | writes `dftb_in.hsd` then `geometry.gen`, stopping at the first failed write with its message |
| DftbRunner.RunDftbCalculation | go-service/internal/dftb/runner.go:188-227 | missing executable, timeout, run error and missing output in that order, otherwise the output path |
| DftbRunner.CalculationOutcome | go-service/internal/dftb/runner.go:188-227 | success exactly when the executable exists, the run exits cleanly and `dftb_out.hsd` is present; a missing executable launches nothing; a timeout, an engine error and a clean exit without output each give their own message |
| DftbRunner.EngineErrorPrefixedTwice | go-service/internal/dftb/runner.go:58-61 | when the executable exists and the engine run fails, the response carries the engine's error after `DFTB+ calculation failed: ` twice, once from `runDFTBCalculation` (line 216) and once from `RunOptimization` |
| DftbRunner.CalculationDisk | go-service/internal/dftb/runner.go:190-205 | the calculation's only effect on disk is the engine's output, and only if launched |
| DftbRunner.ParseOutputSpec | go-service/internal/dftb/runner.go:230-271 | fails exactly when the output file cannot be read; otherwise the fixed placeholder record |
| DftbRunner.ParseDftbOutput | go-service/internal/dftb/runner.go:230-271 | reads the file and computes `ParseOutputSpec` |
| DftbRunner.GenerateOptimizedCif | go-service/internal/dftb/runner.go:274-328 | writes the optimized CIF text and returns its path, or the write error |
| DftbRunner.ReadFromFile | go-service/internal/parser/cif_parser.go:333-340 | the file's content or `failed to read file: ...` |
| DftbRunner.RunOptimization | go-service/internal/dftb/runner.go:33-92 | the stages run in order, each failure ends the run with its stage's message, and the disk ends as `Pipeline` says |
| DftbRunner.AfterOutputParseOutcome | go-service/internal/dftb/runner.go:69-91 | after the output parse, the run answers the request, and a success has the optimized CIF on disk and in the response |
| DftbRunner.AfterCalculationOutcome | go-service/internal/dftb/runner.go:63-91 | likewise from the output parse on |
| DftbRunner.AfterInputFilesOutcome | go-service/internal/dftb/runner.go:57-91 | from the calculation on, every outcome is a response to the request, writing only the run's own files |
| DftbRunner.InputFilesWritesOnly | go-service/internal/dftb/runner.go:95-113 | input generation writes only `dftb_in.hsd` and `geometry.gen` of the request |
| DftbRunner.AfterConvertOutcome | go-service/internal/dftb/runner.go:52-91 | from input generation on, every outcome is a response to the request |
| DftbRunner.AfterMkdirOutcome | go-service/internal/dftb/runner.go:40-91 | after mkdir: a panic exactly when the parser panics, otherwise a response; an unparsable structure leaves the disk unchanged |
| DftbRunner.PipelineOutcome | go-service/internal/dftb/runner.go:33-92 | a Go error exactly when mkdir fails, then with nothing written; otherwise the directory exists, only the run's own files were written, and the outcome is a panic or a response |
| DftbRunner.PipelineKeepsErrorLog | go-service/internal/dftb/runner.go:33-92 | no run creates or removes an `error.log` |
| DftbRunner.PipelineSuccess | go-service/internal/dftb/runner.go:86-91 | a success carries the placeholder record and the base64 of the optimized CIF written for the parsed structure |
| DftbRunner.StatusAfterWrites | go-service/internal/dftb/runner.go:361-382 | with only the run's files written and no `error.log`, the status is `running` or `completed`, and `completed` once the output exists |
| DftbRunner.StatusAfterRun | go-service/internal/dftb/runner.go:361-382 | after a run on a request without `error.log`, the status is unchanged after a Go error, otherwise `running` or `completed`, and `completed` after a success |
| DftbRunner.ParseFailureShowsRunning | go-service/internal/dftb/runner.go:40-44 | a structure that does not parse gets an error response or panics, only the directory is created, and the status stays `running` |
| Server.ValidateConfig | go-service/cmd/server/main.go:175-202 | nil exactly when the port is in 1..65535, both paths are non-empty, both counts are positive and the executable is not missing |
| Server.ValidateConfigOrder | go-service/cmd/server/main.go:176-186 | the port, work-directory and executable-path messages each exactly when their check fails and the earlier ones pass |
| Server.ValidateConfigOrderLimits | go-service/cmd/server/main.go:188-199 | then the max-requests, timeout and executable-not-found messages in that order |
| Server.DefaultConfigValid | go-service/cmd/server/main.go:21-25 | the flag defaults pass every check but the executable lookup |
| Server.CleanupOldFiles | go-service/cmd/server/main.go:111-145 | a listing failure is the only error; otherwise the sweep removes `Removed` and counts exactly those removals |
| Server.RemovedExactly | go-service/cmd/server/main.go:120-139 | a name is removed exactly when an entry of that name is a directory, its info is readable, its age is strictly greater than the limit and its removal succeeds |
| Server.RemovedOnlyExpired | go-service/cmd/server/main.go:121-132 | a file, an unreadable entry or a directory exactly at the age limit stays |
| Server.CountBoundedByDirectories | go-service/cmd/server/main.go:118-143 | the logged count never exceeds the number of directory entries |

## Left out

- I/O is modelled through parameters. Filesystem failures, the engine
  executable's presence, how the engine run ends and what it writes, base64,
  `strconv.ParseFloat`, the `%f` formats, the date and the clock are all
  parameters (`Environment`, `Entry`). Their Go implementations are not part
  of this model.
- The process and the timeout race are not modelled. `exec.Command`, the
  goroutine and the `time.After` select become one `EngineOutcome` value.
  Killing the process on timeout is not modelled.
- Concurrency is not modelled: the HTTP handlers, the cleanup ticker
  goroutine and signal handling are out of scope.
- `MaxRequests` is only validated and logged. Nothing enforces it, so
  there is nothing to model.
- Paths are (request id, file name) pairs. `filepath.Join` and the working
  directory prefix are not modelled.
- `os.Stat` errors other than does-not-exist are not distinguished. They
  count as existing, which is what Go's `IsNotExist` check gives.
- A failing `os.WriteFile` is modelled as writing nothing. A partial write
  is not modelled.
- `bufio.Scanner` has a 64 KiB token limit. The error it then returns
  (`error reading CIF content`) is not modelled: every line is read.
- CifParser.ParseFromString: never returns a Go error, because that scanner
  error is the only way the Go code returns one.
- The angles in `ToDFTBInput` are converted to radians but never used, so
  they are not modelled. The lattice is the diagonal of the three lengths,
  as in the code.
- `DFTBRunner.Cleanup` repeats the selection rule of `cleanupOldFiles` and is
  not modelled separately.
- `CIFParser.SaveToFile` is not modelled because nothing in the core calls
  it. `ReadFromFile` is `DftbRunner.ReadFromFile`.
- Go's map iteration order for the cell lines of `optimized.cif` is a
  parameter (`mapOrder`). `RunOptimization` and `GenerateOptimizedCif`
  require it to list every key of a map exactly once
  (`DftbRunner.RangesOverMaps`), as Go's `range` does. Which order Go picks
  is not modelled.
- `optimized.cif` names the column `_atom_site_U_iso_or_equiv`, while the row
  mapping only matches the lower-case `_atom_site_u_iso_or_equiv`. Both
  strings are kept as written. Nothing re-reads the file.
- `parseDFTBOutput` returns a fixed record whatever the file holds. The
  model's `ParsedOutput` is that record as a datatype rather than Go's nested
  `map[string]interface{}`.
- Server.CleanupOldFiles: times are unbounded integers. Go's saturating
  `time.Time.Sub` is not modelled.
- Go strings are byte strings, while the model's text is a sequence of
  characters. Decoded content that is not valid UTF-8, whose bytes Go's
  `TrimSpace` and `Fields` read as `RuneError`, cannot be represented.
- The log lines written by `cleanupOldFiles` and `runDFTBCalculation` are
  not modelled.
