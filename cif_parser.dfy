/** The CIF reader of go-service/internal/parser/cif_parser.go, first part:
    the line-driven parser `ParseFromString` and `ParseFromBase64`.

    `strconv.ParseFloat` is the parameter `parseFloat`; base64 decoding is the
    parameter `decodeBase64`. */
module CifParser {
  import opened Wrappers
  import opened GoStrings
  import opened Types

  const CellLengthKeys: set<string> := {"_cell_length_a", "_cell_length_b", "_cell_length_c"}
  const CellAngleKeys: set<string> := {"_cell_angle_alpha", "_cell_angle_beta", "_cell_angle_gamma"}

  // ---------------------------------------------------------------------------
  // ParseFromString: the scanner loop as a state machine
  // ---------------------------------------------------------------------------

  /** The scanner loop's variables: `currentDataBlock` (`None` while it is nil),
      `inLoop`, `loopHeaders` and `loopData`. */
  datatype ParserState = ParserState(
    block: Option<DataBlock>,
    inLoop: bool,
    loopHeaders: seq<string>,
    loopData: seq<seq<string>>)

  const InitialState := ParserState(None, false, [], [])

  /** The state right after a `data_<name>` line. */
  function StartOfBlock(name: string): ParserState {
    ParserState(Some(NewDataBlock(name)), false, [], [])
  }

  /** What a parse ends in. `NilBlockPanic` is the nil-pointer dereference Go
      raises when a metadata or cell line comes before the first `data_` line;
      `ParseError` is a reported error. */
  datatype ParseResult = Parsed(cif: CifFile) | ParseError(message: string) | NilBlockPanic

  /** Lines that change nothing: blank after trimming, or a comment (a `#`
      prefix, checked on the first character; see `HasPrefixOneChar`). */
  predicate IsSkipped(line: string) {
    line == "" || line[0] == '#'
  }

  /** A line with the `_` prefix of a tag. */
  predicate IsTagLine(line: string) {
    line != "" && line[0] == '_'
  }

  predicate IsDataLine(line: string) {
    HasPrefix(line, "data_")
  }

  predicate IsLoopLine(line: string) {
    HasPrefix(line, "loop_")
  }

  /** The quote removal applied to values: when a value both starts and ends
      with a double quote (or else a single quote), every leading and trailing
      copy of that quote goes. */
  function StripQuotes(value: string): string {
    if HasPrefix(value, "\"") && HasSuffix(value, "\"") then TrimChar(value, '"')
    else if HasPrefix(value, "'") && HasSuffix(value, "'") then TrimChar(value, '\'')
    else value
  }

  /** A `key value` line split at its first space, both halves trimmed and the
      value unquoted; `None` when the line holds no space. */
  function KeyValue(line: string): Option<(string, string)> {
    match SplitAtFirstSpace(line)
    case None => None
    case Some((k, v)) => Some((TrimSpace(k), StripQuotes(TrimSpace(v))))
  }

  /** How the scanner loop tells a trimmed line apart, in the order of its tests. */
  datatype LineKind =
    | Skipped           // blank or `#` comment
    | DataDecl(name: string)  // `data_<name>`
    | LoopDecl          // `loop_`
    | Tag               // starts with `_`
    | Plain             // anything else

  function Classify(line: string): LineKind {
    if IsSkipped(line) then Skipped
    else if IsDataLine(line) then DataDecl(line[5..])
    else if IsLoopLine(line) then LoopDecl
    else if IsTagLine(line) then Tag
    else Plain
  }

  /** A non-`_` line inside a loop: a row, kept when its field count equals
      the header count. */
  function RowStep(st: ParserState, line: string): ParserState {
    if |Fields(line)| == |st.loopHeaders| then st.(loopData := st.loopData + [Fields(line)]) else st
  }

  /** A non-`_` line outside a loop: with a space it is a metadata entry (a nil
      dereference before the first block), without one it is ignored. */
  function PairStep(st: ParserState, line: string): Option<ParserState> {
    if ' ' !in line then Some(st)
    else match KeyValue(line)
      case None => Some(st)
      case Some((key, value)) =>
        if st.block.None? then None
        else Some(st.(block := Some(st.block.value.(metadata := st.block.value.metadata[key := value]))))
  }

  /** A `_` line outside a loop: one of the six cell keys with a value that
      parses as a number sets that key; everything else is ignored. */
  function TagStep(st: ParserState, line: string, parseFloat: string -> Option<real>): Option<ParserState> {
    CellEntry(st, KeyValue(line), parseFloat)
  }

  /** The effect of a split `_` line on the current block. */
  function CellEntry(st: ParserState, kv: Option<(string, string)>, parseFloat: string -> Option<real>): Option<ParserState> {
    match kv
    case None => Some(st)
    case Some((key, value)) =>
      if key in CellLengthKeys && parseFloat(value).Some? then
        if st.block.None? then None
        else Some(st.(block := Some(st.block.value.(cellLength := st.block.value.cellLength[key := parseFloat(value).value]))))
      else if key in CellAngleKeys && parseFloat(value).Some? then
        if st.block.None? then None
        else Some(st.(block := Some(st.block.value.(cellAngle := st.block.value.cellAngle[key := parseFloat(value).value]))))
      else Some(st)
  }

  /** One scanner line applied to the state; `None` is the nil dereference. */
  function Step(st: ParserState, raw: string, parseFloat: string -> Option<real>): Option<ParserState> {
    StepLine(st, TrimSpace(raw), parseFloat)
  }

  /** The effect of a trimmed line. */
  function StepLine(st: ParserState, line: string, parseFloat: string -> Option<real>): Option<ParserState> {
    StepOn(st, line, Classify(line), parseFloat)
  }

  /** The effect of a trimmed line once its kind is known. */
  function StepOn(st: ParserState, line: string, kind: LineKind, parseFloat: string -> Option<real>): Option<ParserState> {
    match kind
    case Skipped => Some(st)
    case DataDecl(name) => Some(StartOfBlock(name))
    case LoopDecl => Some(st.(inLoop := true, loopHeaders := [], loopData := []))
    case Tag => if st.inLoop then Some(st.(loopHeaders := st.loopHeaders + [line])) else TagStep(st, line, parseFloat)
    case Plain => if st.inLoop then Some(RowStep(st, line)) else PairStep(st, line)
  }

  /** `Step` read back as the scanner loop's chain of tests, in source order. */
  lemma StepCases(st: ParserState, raw: string, parseFloat: string -> Option<real>)
    ensures var line := TrimSpace(raw);
      Step(st, raw, parseFloat)
        == if IsSkipped(line) then Some(st)
           else if IsDataLine(line) then Some(StartOfBlock(line[5..]))
           else if IsLoopLine(line) then Some(st.(inLoop := true, loopHeaders := [], loopData := []))
           else if st.inLoop then
             if IsTagLine(line) then Some(st.(loopHeaders := st.loopHeaders + [line]))
             else Some(RowStep(st, line))
           else if IsTagLine(line) then TagStep(st, line, parseFloat)
           else PairStep(st, line)
  {
  }

  lemma RunUnfold(st: ParserState, lines: seq<string>, i: nat, parseFloat: string -> Option<real>)
    requires i < |lines|
    ensures var next := Step(st, lines[i], parseFloat);
      Run(st, lines[i..], parseFloat) == if next.None? then None else Run(next.value, lines[i + 1..], parseFloat)
  {
    assert lines[i..][0] == lines[i] && lines[i..][1..] == lines[i + 1..];
  }

  /** A line whose first character is neither `d` nor `l` declares nothing. */
  lemma FirstCharRulesOutDecl(line: string)
    requires line != [] && line[0] != 'd' && line[0] != 'l'
    ensures !IsDataLine(line) && !IsLoopLine(line)
  {
    if |line| >= 5 {
      assert line[..5][0] == line[0];
    }
  }

  lemma DataLineStep(st: ParserState, raw: string, parseFloat: string -> Option<real>)
    requires IsDataLine(TrimSpace(raw))
    ensures Step(st, raw, parseFloat) == Some(StartOfBlock(TrimSpace(raw)[5..]))
  {
    var line := TrimSpace(raw);
    assert line[0] == 'd' by { assert line[..5][0] == line[0]; }
    assert Classify(line) == DataDecl(line[5..]);
  }

  lemma TagLineStep(st: ParserState, raw: string, parseFloat: string -> Option<real>)
    requires !st.inLoop && IsTagLine(TrimSpace(raw))
    ensures Step(st, raw, parseFloat) == TagStep(st, TrimSpace(raw), parseFloat)
  {
    var line := TrimSpace(raw);
    FirstCharRulesOutDecl(line);
    assert Classify(line) == Tag;
  }

  /** The scanner loop over `lines` from state `st`. */
  function Run(st: ParserState, lines: seq<string>, parseFloat: string -> Option<real>): Option<ParserState>
    decreases |lines|
  {
    if lines == [] then Some(st)
    else match Step(st, lines[0], parseFloat)
      case None => None
      case Some(next) => Run(next, lines[1..], parseFloat)
  }

  /** The CIF value returned once the loop is over: the last block if any. */
  function Finish(st: Option<ParserState>): ParseResult {
    match st
    case None => NilBlockPanic
    case Some(s) => Parsed(if s.block.Some? then CifFile(s.block.value) else EmptyCifFile)
  }

  /** The specification of `ParseFromString` over the scanner's lines. */
  function Parse(lines: seq<string>, parseFloat: string -> Option<real>): ParseResult {
    Finish(Run(InitialState, lines, parseFloat))
  }

  /** `ParseFromString`: the scanner loop over the content's lines. */
  method ParseFromString(content: string, parseFloat: string -> Option<real>) returns (r: ParseResult)
    ensures r == Parse(ScanLines(content), parseFloat)
    ensures !r.ParseError?
  {
    var lines := ScanLines(content);
    var cif := EmptyCifFile;
    var st := InitialState;
    var i := 0;
    while i < |lines|
      invariant 0 <= i <= |lines|
      invariant Run(InitialState, lines, parseFloat) == Run(st, lines[i..], parseFloat)
    {
      RunUnfold(st, lines, i, parseFloat);
      var panicked;
      panicked, st := ScanLine(st, lines[i], parseFloat);
      if panicked {
        return NilBlockPanic;
      }
      i := i + 1;
    }
    // Saving each block into `cif` when the next `data_` line starts one is
    // overwritten here, so only the last block is ever returned.
    if st.block.Some? {
      cif := CifFile(st.block.value);
    }
    return Parsed(cif);
  }

  /** One iteration of the scanner loop (cif_parser.go:44-144): the line is
      trimmed and dispatched, in the source's order of tests, updating the
      current block's maps in place. */
  method ScanLine(st: ParserState, raw: string, parseFloat: string -> Option<real>) returns (panicked: bool, next: ParserState)
    ensures Step(st, raw, parseFloat) == if panicked then None else Some(next)
  {
    StepCases(st, raw, parseFloat);
    var currentDataBlock, inLoop, loopHeaders, loopData := st.block, st.inLoop, st.loopHeaders, st.loopData;
    panicked := false;
    var line := TrimSpace(raw);
    HasPrefixOneChar(line, '#');
    HasPrefixOneChar(line, '_');
    if line == "" || HasPrefix(line, "#") {
      return false, st;
    }
    if HasPrefix(line, "data_") {
      currentDataBlock := Some(NewDataBlock(line[5..]));
      inLoop := false;
      loopHeaders := [];
      loopData := [];
    } else if HasPrefix(line, "loop_") {
      inLoop := true;
      loopHeaders := [];
      loopData := [];
    } else if inLoop {
      if HasPrefix(line, "_") {
        loopHeaders := loopHeaders + [line];
      } else if !HasPrefix(line, "_") && line != "" {
        var fields := Fields(line);
        if |fields| == |loopHeaders| {
          loopData := loopData + [fields];
        }
      } else {
        // The end-of-loop branch, which would call processLoopData, cannot be
        // reached: every non-blank line took one of the two branches above.
        assert false;
      }
    } else if ' ' in line && !HasPrefix(line, "_") {
      var kv := KeyValue(line);
      if kv.Some? {
        if currentDataBlock.None? {
          return true, st;
        }
        var b := currentDataBlock.value;
        currentDataBlock := Some(b.(metadata := b.metadata[kv.value.0 := kv.value.1]));
      }
    } else if HasPrefix(line, "_") {
      panicked, currentDataBlock := ApplyKeyword(currentDataBlock, line, parseFloat, st);
    }
    next := ParserState(currentDataBlock, inLoop, loopHeaders, loopData);
  }

  /** The handling of a `_` line outside a loop (cif_parser.go:120-144): a cell
      key whose value parses sets that entry of the current block's map. */
  method ApplyKeyword(currentDataBlock: Option<DataBlock>, line: string, parseFloat: string -> Option<real>, ghost st: ParserState)
    returns (panicked: bool, updated: Option<DataBlock>)
    requires st.block == currentDataBlock
    ensures TagStep(st, line, parseFloat) == if panicked then None else Some(st.(block := updated))
  {
    updated := currentDataBlock;
    panicked := false;
    var kv := KeyValue(line);
    if kv.Some? {
      var (key, value) := kv.value;
      if key in CellLengthKeys {
        var val := parseFloat(value);
        if val.Some? {
          if currentDataBlock.None? {
            return true, updated;
          }
          var b := currentDataBlock.value;
          updated := Some(b.(cellLength := b.cellLength[key := val.value]));
        }
      } else if key in CellAngleKeys {
        var val := parseFloat(value);
        if val.Some? {
          if currentDataBlock.None? {
            return true, updated;
          }
          var b := currentDataBlock.value;
          updated := Some(b.(cellAngle := b.cellAngle[key := val.value]));
        }
      }
    }
  }

  /** `ParseFromBase64`: decode, then parse. */
  method ParseFromBase64(encoded: string, decodeBase64: string -> Result<string>, parseFloat: string -> Option<real>)
    returns (r: ParseResult)
    ensures r == ParseBase64Spec(encoded, decodeBase64, parseFloat)
  {
    var decoded := decodeBase64(encoded);
    if decoded.Err? {
      return ParseError("failed to decode base64 content: " + decoded.message);
    }
    r := ParseFromString(decoded.value, parseFloat);
  }

  function ParseBase64Spec(encoded: string, decodeBase64: string -> Result<string>, parseFloat: string -> Option<real>): ParseResult {
    match decodeBase64(encoded)
    case Err(e) => ParseError("failed to decode base64 content: " + e)
    case Ok(text) => Parse(ScanLines(text), parseFloat)
  }

  // ---------------------------------------------------------------------------
  // Properties of the parser
  // ---------------------------------------------------------------------------

  lemma {:induction false} RunAppend(st: ParserState, a: seq<string>, b: seq<string>, parseFloat: string -> Option<real>)
    ensures var mid := Run(st, a, parseFloat);
      Run(st, a + b, parseFloat) == if mid.None? then None else Run(mid.value, b, parseFloat)
    decreases |a|
  {
    if a == [] {
      assert a + b == b;
    } else {
      assert (a + b)[0] == a[0] && (a + b)[1..] == a[1..] + b;
      var next := Step(st, a[0], parseFloat);
      if next.Some? {
        RunAppend(next.value, a[1..], b, parseFloat);
      }
    }
  }

  /** The lines that are neither blank nor comments once trimmed. */
  function SignificantLines(lines: seq<string>): seq<string> {
    if lines == [] then []
    else (if IsSkipped(TrimSpace(lines[0])) then [] else [lines[0]]) + SignificantLines(lines[1..])
  }

  lemma {:induction false} SkippedLinesIgnoredFrom(st: ParserState, lines: seq<string>, parseFloat: string -> Option<real>)
    ensures Run(st, lines, parseFloat) == Run(st, SignificantLines(lines), parseFloat)
    decreases |lines|
  {
    if lines != [] {
      var rest := lines[1..];
      var next := Step(st, lines[0], parseFloat);
      assert Run(st, lines, parseFloat) == if next.None? then None else Run(next.value, rest, parseFloat);
      if IsSkipped(TrimSpace(lines[0])) {
        StepCases(st, lines[0], parseFloat);
        assert SignificantLines(lines) == SignificantLines(rest);
        SkippedLinesIgnoredFrom(st, rest, parseFloat);
      } else {
        var sig := [lines[0]] + SignificantLines(rest);
        assert SignificantLines(lines) == sig;
        assert sig[0] == lines[0] && sig[1..] == SignificantLines(rest);
        assert Run(st, sig, parseFloat) == if next.None? then None else Run(next.value, sig[1..], parseFloat);
        if next.Some? {
          SkippedLinesIgnoredFrom(next.value, rest, parseFloat);
        }
      }
    }
  }

  /** Blank lines and comment lines change nothing: removing them all leaves
      the parse unchanged. */
  lemma SkippedLinesIgnored(lines: seq<string>, parseFloat: string -> Option<real>)
    ensures Parse(lines, parseFloat) == Parse(SignificantLines(lines), parseFloat)
  {
    SkippedLinesIgnoredFrom(InitialState, lines, parseFloat);
  }

  /** A `data_` line starts afresh: the result depends only on the name it
      declares and on the lines after it, so nothing of an earlier block
      (its name, cell values, metadata or loop state) reaches the result. */
  lemma LastBlockWins(lines: seq<string>, k: nat, parseFloat: string -> Option<real>)
    requires k < |lines| && IsDataLine(TrimSpace(lines[k]))
    ensures Parse(lines, parseFloat)
         == if Run(InitialState, lines[..k], parseFloat).None? then NilBlockPanic
            else Finish(Run(StartOfBlock(TrimSpace(lines[k])[5..]), lines[k + 1..], parseFloat))
  {
    assert lines == lines[..k] + lines[k..];
    RunAppend(InitialState, lines[..k], lines[k..], parseFloat);
    var mid := Run(InitialState, lines[..k], parseFloat);
    if mid.Some? {
      RunUnfold(mid.value, lines, k, parseFloat);
      DataLineStep(mid.value, lines[k], parseFloat);
    }
  }

  /** What only a `data_` line changes: whether there is a block, its name and
      its atom and symmetry lists. */
  predicate SameBlockIdentity(b1: Option<DataBlock>, b2: Option<DataBlock>) {
    b1.Some? == b2.Some?
    && (b1.Some? ==> b1.value.name == b2.value.name
                     && b1.value.atomSites == b2.value.atomSites
                     && b1.value.symmetry == b2.value.symmetry)
  }

  predicate NoDataLines(lines: seq<string>) {
    forall i :: 0 <= i < |lines| ==> !IsDataLine(TrimSpace(lines[i]))
  }

  lemma TagStepKeepsIdentity(st: ParserState, line: string, parseFloat: string -> Option<real>)
    ensures TagStep(st, line, parseFloat).Some? ==> SameBlockIdentity(TagStep(st, line, parseFloat).value.block, st.block)
  {
  }

  lemma PairStepKeepsIdentity(st: ParserState, line: string)
    ensures PairStep(st, line).Some? ==> SameBlockIdentity(PairStep(st, line).value.block, st.block)
  {
  }

  lemma StepOnKeepsIdentity(st: ParserState, line: string, kind: LineKind, parseFloat: string -> Option<real>)
    requires !kind.DataDecl?
    ensures StepOn(st, line, kind, parseFloat).Some? ==> SameBlockIdentity(StepOn(st, line, kind, parseFloat).value.block, st.block)
  {
    var next := StepOn(st, line, kind, parseFloat);
    if kind.Tag? {
      if st.inLoop {
        assert next == Some(st.(loopHeaders := st.loopHeaders + [line]));
      } else {
        assert next == TagStep(st, line, parseFloat);
        TagStepKeepsIdentity(st, line, parseFloat);
      }
    } else if kind.Plain? {
      if st.inLoop {
        assert next == Some(RowStep(st, line));
      } else {
        assert next == PairStep(st, line);
        PairStepKeepsIdentity(st, line);
      }
    } else {
      assert next == Some(st) || next.value.block == st.block;
    }
  }

  lemma StepKeepsIdentity(st: ParserState, raw: string, parseFloat: string -> Option<real>)
    requires !IsDataLine(TrimSpace(raw))
    ensures Step(st, raw, parseFloat).Some? ==> SameBlockIdentity(Step(st, raw, parseFloat).value.block, st.block)
  {
    var line := TrimSpace(raw);
    StepOnKeepsIdentity(st, line, Classify(line), parseFloat);
  }

  lemma {:induction false} NoDataLineKeepsIdentity(st: ParserState, lines: seq<string>, parseFloat: string -> Option<real>)
    requires NoDataLines(lines)
    ensures Run(st, lines, parseFloat).Some? ==> SameBlockIdentity(Run(st, lines, parseFloat).value.block, st.block)
    decreases |lines|
  {
    if lines != [] {
      var next := Step(st, lines[0], parseFloat);
      assert Run(st, lines, parseFloat) == if next.None? then None else Run(next.value, lines[1..], parseFloat);
      assert !IsDataLine(TrimSpace(lines[0]));
      StepKeepsIdentity(st, lines[0], parseFloat);
      if next.Some? {
        assert NoDataLines(lines[1..]) by {
          forall i | 0 <= i < |lines[1..]| ensures !IsDataLine(TrimSpace(lines[1..][i])) {
            assert lines[1..][i] == lines[i + 1];
          }
        }
        NoDataLineKeepsIdentity(next.value, lines[1..], parseFloat);
      }
    }
  }

  /** The name of the parsed block is the text after `data_` on the last
      `data_` line. */
  lemma NameFromLastDataLine(lines: seq<string>, k: nat, parseFloat: string -> Option<real>)
    requires k < |lines| && IsDataLine(TrimSpace(lines[k])) && NoDataLines(lines[k + 1..])
    requires Parse(lines, parseFloat).Parsed?
    ensures Parse(lines, parseFloat).cif.dataBlock.name == TrimSpace(lines[k])[5..]
  {
    LastBlockWins(lines, k, parseFloat);
    NoDataLineKeepsIdentity(StartOfBlock(TrimSpace(lines[k])[5..]), lines[k + 1..], parseFloat);
  }

  /** Without a `data_` line the parse either panics on a nil block or returns
      a CIF with an empty name and nothing in it: a missing data block is not
      an error of the parser. */
  lemma WithoutDataLineNameIsEmpty(lines: seq<string>, parseFloat: string -> Option<real>)
    requires NoDataLines(lines)
    ensures Parse(lines, parseFloat) == NilBlockPanic || Parse(lines, parseFloat) == Parsed(EmptyCifFile)
  {
    NoDataLineKeepsIdentity(InitialState, lines, parseFloat);
  }

  lemma {:induction false} NoSpaceNeverPanics(st: ParserState, lines: seq<string>, parseFloat: string -> Option<real>)
    requires forall i :: 0 <= i < |lines| ==> ' ' !in TrimSpace(lines[i])
    ensures Run(st, lines, parseFloat).Some?
    decreases |lines|
  {
    if lines != [] {
      var next := Step(st, lines[0], parseFloat);
      assert next.Some?;
      NoSpaceNeverPanics(next.value, lines[1..], parseFloat);
    }
  }

  /** Content with no `data_` line and no line holding a space (so no key/value
      or cell line) parses successfully to the empty, nameless CIF. */
  lemma NoDataNoPairsGivesEmptyCif(lines: seq<string>, parseFloat: string -> Option<real>)
    requires NoDataLines(lines)
    requires forall i :: 0 <= i < |lines| ==> ' ' !in TrimSpace(lines[i])
    ensures Parse(lines, parseFloat) == Parsed(EmptyCifFile)
  {
    NoSpaceNeverPanics(InitialState, lines, parseFloat);
    NoDataLineKeepsIdentity(InitialState, lines, parseFloat);
  }

  /** What holds of every state the scanner loop reaches: no atom site or
      symmetry operator was ever added, and only the six recognised cell keys
      were ever set. */
  predicate ReachableShape(st: ParserState) {
    st.block.Some? ==>
      st.block.value.atomSites == [] && st.block.value.symmetry == []
      && st.block.value.cellLength.Keys <= CellLengthKeys
      && st.block.value.cellAngle.Keys <= CellAngleKeys
  }

  lemma TagStepKeepsShape(st: ParserState, line: string, parseFloat: string -> Option<real>)
    requires ReachableShape(st)
    ensures TagStep(st, line, parseFloat).Some? ==> ReachableShape(TagStep(st, line, parseFloat).value)
  {
  }

  lemma PairStepKeepsShape(st: ParserState, line: string)
    requires ReachableShape(st)
    ensures PairStep(st, line).Some? ==> ReachableShape(PairStep(st, line).value)
  {
  }

  lemma StepOnKeepsShape(st: ParserState, line: string, kind: LineKind, parseFloat: string -> Option<real>)
    requires ReachableShape(st)
    ensures StepOn(st, line, kind, parseFloat).Some? ==> ReachableShape(StepOn(st, line, kind, parseFloat).value)
  {
    if kind.Tag? && !st.inLoop {
      TagStepKeepsShape(st, line, parseFloat);
    } else if kind.Plain? && !st.inLoop {
      PairStepKeepsShape(st, line);
    }
  }

  lemma StepKeepsShape(st: ParserState, raw: string, parseFloat: string -> Option<real>)
    requires ReachableShape(st)
    ensures Step(st, raw, parseFloat).Some? ==> ReachableShape(Step(st, raw, parseFloat).value)
  {
    var line := TrimSpace(raw);
    StepOnKeepsShape(st, line, Classify(line), parseFloat);
  }

  lemma {:induction false} RunKeepsShape(st: ParserState, lines: seq<string>, parseFloat: string -> Option<real>)
    requires ReachableShape(st)
    ensures Run(st, lines, parseFloat).Some? ==> ReachableShape(Run(st, lines, parseFloat).value)
    decreases |lines|
  {
    if lines != [] {
      StepKeepsShape(st, lines[0], parseFloat);
      match Step(st, lines[0], parseFloat) {
        case None =>
        case Some(next) => RunKeepsShape(next, lines[1..], parseFloat);
      }
    }
  }

  /** Loop rows never reach the structure: whatever the text, a successful
      parse has no atom sites and no symmetry operators, and its cell maps
      hold only the recognised keys. */
  lemma ParsedHasNoAtomSites(lines: seq<string>, parseFloat: string -> Option<real>)
    requires Parse(lines, parseFloat).Parsed?
    ensures Parse(lines, parseFloat).cif.dataBlock.atomSites == []
    ensures Parse(lines, parseFloat).cif.dataBlock.symmetry == []
    ensures Parse(lines, parseFloat).cif.dataBlock.cellLength.Keys <= CellLengthKeys
    ensures Parse(lines, parseFloat).cif.dataBlock.cellAngle.Keys <= CellAngleKeys
  {
    RunKeepsShape(InitialState, lines, parseFloat);
  }

  /** The trimmed lines that start with `_`, in order. */
  function UnderscoreLines(lines: seq<string>): seq<string> {
    if lines == [] then []
    else (if IsTagLine(TrimSpace(lines[0])) then [TrimSpace(lines[0])] else []) + UnderscoreLines(lines[1..])
  }

  /** The headers one line adds inside a loop. */
  function HeaderOf(raw: string): seq<string> {
    if IsTagLine(TrimSpace(raw)) then [TrimSpace(raw)] else []
  }

  lemma LoopLineHeaders(st: ParserState, line: string, parseFloat: string -> Option<real>)
    requires st.inLoop && !IsDataLine(line) && !IsLoopLine(line)
    ensures StepLine(st, line, parseFloat).Some?
    ensures StepLine(st, line, parseFloat).value.block == st.block
    ensures StepLine(st, line, parseFloat).value.inLoop
    ensures StepLine(st, line, parseFloat).value.loopHeaders == st.loopHeaders + (if IsTagLine(line) then [line] else [])
  {
    var kind := Classify(line);
    if IsSkipped(line) {
      assert kind == Skipped;
      assert st.loopHeaders + [] == st.loopHeaders;
    } else if IsTagLine(line) {
      assert kind == Tag;
    } else {
      assert kind == Plain;
      RowStepKeepsLoop(st, line);
      assert st.loopHeaders + [] == st.loopHeaders;
    }
  }

  lemma LoopStepHeaders(st: ParserState, raw: string, parseFloat: string -> Option<real>)
    requires st.inLoop && !IsDataLine(TrimSpace(raw)) && !IsLoopLine(TrimSpace(raw))
    ensures Step(st, raw, parseFloat).Some?
    ensures Step(st, raw, parseFloat).value.block == st.block
    ensures Step(st, raw, parseFloat).value.inLoop
    ensures Step(st, raw, parseFloat).value.loopHeaders == st.loopHeaders + HeaderOf(raw)
  {
    LoopLineHeaders(st, TrimSpace(raw), parseFloat);
  }

  lemma RowStepKeepsLoop(st: ParserState, line: string)
    ensures RowStep(st, line).block == st.block
    ensures RowStep(st, line).inLoop == st.inLoop
    ensures RowStep(st, line).loopHeaders == st.loopHeaders
  {
  }

  /** Inside a loop, up to the next `data_` or `loop_` line: every `_` line,
      `_cell_*` lines included, is appended to the headers; the block is left
      as it was (no cell value is set) and nothing panics. */
  lemma {:induction false} LoopCollectsHeaders(st: ParserState, lines: seq<string>, parseFloat: string -> Option<real>)
    requires st.inLoop
    requires forall i :: 0 <= i < |lines| ==> !IsDataLine(TrimSpace(lines[i])) && !IsLoopLine(TrimSpace(lines[i]))
    ensures Run(st, lines, parseFloat).Some?
    ensures Run(st, lines, parseFloat).value.block == st.block
    ensures Run(st, lines, parseFloat).value.inLoop
    ensures Run(st, lines, parseFloat).value.loopHeaders == st.loopHeaders + UnderscoreLines(lines)
    decreases |lines|
  {
    if lines == [] {
      assert st.loopHeaders + [] == st.loopHeaders;
    } else {
      var first, rest := lines[0], lines[1..];
      LoopStepHeaders(st, first, parseFloat);
      var next := Step(st, first, parseFloat).value;
      assert Run(st, lines, parseFloat) == Run(next, rest, parseFloat);
      assert forall i :: 0 <= i < |rest| ==> rest[i] == lines[i + 1];
      LoopCollectsHeaders(next, rest, parseFloat);
      assert UnderscoreLines(lines) == HeaderOf(first) + UnderscoreLines(rest);
      AppendAssociative(st.loopHeaders, HeaderOf(first), UnderscoreLines(rest));
    }
  }

  /** Proved apart from its one use, where the surrounding context makes
      the extensional equality costly. */
  lemma AppendAssociative<T>(a: seq<T>, b: seq<T>, c: seq<T>)
    ensures a + (b + c) == a + b + c
  {
  }

  lemma CellKeysDisjoint(key: string)
    ensures key in CellLengthKeys ==> key !in CellAngleKeys
  {
    if key in CellLengthKeys {
      assert key[6] == 'l';
    }
  }

  lemma TagStepOnKey(st: ParserState, line: string, key: string, value: string, parseFloat: string -> Option<real>)
    requires st.block.Some? && KeyValue(line) == Some((key, value))
    ensures key in CellLengthKeys ==>
      TagStep(st, line, parseFloat) == Some(st.(block := Some(
        if parseFloat(value).Some? then st.block.value.(cellLength := st.block.value.cellLength[key := parseFloat(value).value])
        else st.block.value)))
    ensures key in CellAngleKeys ==>
      TagStep(st, line, parseFloat) == Some(st.(block := Some(
        if parseFloat(value).Some? then st.block.value.(cellAngle := st.block.value.cellAngle[key := parseFloat(value).value])
        else st.block.value)))
    ensures key !in CellLengthKeys && key !in CellAngleKeys ==> TagStep(st, line, parseFloat) == Some(st)
  {
    var b := st.block.value;
    assert st.(block := Some(b)) == st;
    assert TagStep(st, line, parseFloat) == CellEntry(st, Some((key, value)), parseFloat);
    CellKeysDisjoint(key);
  }

  /** Outside a loop, a recognised cell line sets its key exactly when the
      value parses as a number, and leaves the key as it was otherwise;
      before any `data_` line, a value that parses dereferences the nil
      block and panics. */
  lemma CellLineEffect(st: ParserState, raw: string, key: string, value: string, parseFloat: string -> Option<real>)
    requires !st.inLoop
    requires IsTagLine(TrimSpace(raw)) && KeyValue(TrimSpace(raw)) == Some((key, value))
    ensures st.block.None? ==>
      Step(st, raw, parseFloat) == if (key in CellLengthKeys || key in CellAngleKeys) && parseFloat(value).Some? then None else Some(st)
    ensures st.block.Some? && key in CellLengthKeys ==>
      Step(st, raw, parseFloat) == Some(st.(block := Some(
        if parseFloat(value).Some? then st.block.value.(cellLength := st.block.value.cellLength[key := parseFloat(value).value])
        else st.block.value)))
    ensures st.block.Some? && key in CellAngleKeys ==>
      Step(st, raw, parseFloat) == Some(st.(block := Some(
        if parseFloat(value).Some? then st.block.value.(cellAngle := st.block.value.cellAngle[key := parseFloat(value).value])
        else st.block.value)))
    ensures key !in CellLengthKeys && key !in CellAngleKeys ==> Step(st, raw, parseFloat) == Some(st)
  {
    TagLineStep(st, raw, parseFloat);
    if st.block.Some? {
      TagStepOnKey(st, TrimSpace(raw), key, value, parseFloat);
    } else {
      CellKeysDisjoint(key);
      assert TagStep(st, TrimSpace(raw), parseFloat) == CellEntry(st, Some((key, value)), parseFloat);
    }
  }

  /** Outside a loop, a line not starting with `_` that holds a space records
      the text before the first space as a metadata key with the trimmed,
      unquoted rest as its value; before any `data_` line it panics. */
  lemma MetadataLineEffect(st: ParserState, raw: string, parseFloat: string -> Option<real>)
    requires !st.inLoop
    requires var line := TrimSpace(raw);
      ' ' in line && !IsTagLine(line) && !IsSkipped(line) && !IsDataLine(line) && !IsLoopLine(line)
    ensures var line := TrimSpace(raw);
      var i := IndexOf(line, ' ').value;
      var key := TrimSpace(line[..i]);
      var value := StripQuotes(TrimSpace(line[i + 1..]));
      Step(st, raw, parseFloat)
        == if st.block.None? then None
           else Some(st.(block := Some(st.block.value.(metadata := st.block.value.metadata[key := value]))))
  {
    var line := TrimSpace(raw);
    assert Classify(line) == Plain;
    assert Step(st, raw, parseFloat) == PairStep(st, line);
    var i := IndexOf(line, ' ').value;
    assert SplitAtFirstSpace(line) == Some((line[..i], line[i + 1..]));
  }
}
