/** The job pipeline of go-service/internal/dftb/runner.go: request
    validation, status derivation, the engine run's outcome and
    `RunOptimization`'s chain of stages with early returns.

    The filesystem is the `Workspace` object: the request directories that
    exist and the files in them, keyed by request id and file name. What the
    operating system does (a failing mkdir, write or read, whether the
    engine executable is present, how the engine run ends and what output it
    leaves) is the `Environment` value, together with base64, float parsing
    and formatting, the date and Go's map iteration order. */
module DftbRunner {
  import opened Wrappers
  import opened GoStrings
  import opened Types
  import opened CifParser
  import opened CifConvert
  import opened DftbRender

  const InputFileName := "dftb_in.hsd"
  const GeometryFileName := "geometry.gen"
  const OutputFileName := "dftb_out.hsd"
  const ErrorLogName := "error.log"
  const OptimizedFileName := "optimized.cif"

  /** The error text of reading a file that is not there. */
  const NoSuchFile := "no such file or directory"

  /** The request directories under the working directory and the files
      they hold, by (request id, file name). */
  datatype Disk = Disk(dirs: set<string>, files: map<(string, string), string>)

  /** How the engine process ends: killed at the timeout, exited with an
      error, or exited cleanly. */
  datatype EngineOutcome = TimedOut | RunError(message: string) | CleanExit

  datatype Environment = Environment(
    mkdirError: Option<string>,
    writeError: string -> Option<string>,  // by file name
    readError: string -> Option<string>,   // by file name
    executableExists: bool,
    engine: EngineOutcome,
    engineOutput: Option<string>,          // what the engine leaves in dftb_out.hsd
    decodeBase64: string -> Result<string>,
    encodeBase64: string -> string,
    parseFloat: string -> Option<real>,
    formatFloat: (FloatFormat, real) -> string,
    date: string,
    mapOrder: map<string, real> -> seq<string>)

  /** What `RunOptimization` ends with: a response with a nil error, a Go
      error with a nil response, or the nil-block panic of the parser. */
  datatype RunResult = Responded(response: OptimizationResponse) | Failed(error: string) | Panicked

  /** The geometry file can be written for an input that lists an element
      whenever it lists an atom (`Elements[i % len]` needs a non-empty list). */
  predicate Renderable(input: DftbInput) {
    |input.geometry.coordinates| == 0 || |input.geometry.elements| > 0
  }

  /** The texts the pipeline writes: `dftb_in.hsd` and `geometry.gen` for a
      converted input, `optimized.cif` for a parsed structure. The pipeline's
      properties hold whatever these texts are; the service's own are
      `ServiceRenderers`. */
  datatype Renderers = Renderers(
    inputDeck: DftbInput -> string,
    geometry: DftbInput -> string,
    optimizedCif: CifFile -> string)

  /** `generateDFTBInputContent`, `generateGeometryContent` and
      `generateOptimizedCIF`'s text. */
  function ServiceRenderers(env: Environment): Renderers {
    Renderers(
      input => Text(DftbInputLines(input, env.formatFloat)),
      input => if Renderable(input) then Text(GeometryLines(input, env.formatFloat)) else "",
      cif => OptimizedCifText(cif, env))
  }

  // ---------------------------------------------------------------------------
  // The filesystem
  // ---------------------------------------------------------------------------

  function MkdirSpec(d: Disk, id: string, env: Environment): (Option<string>, Disk) {
    if env.mkdirError.Some? then (env.mkdirError, d) else (None, d.(dirs := d.dirs + {id}))
  }

  function WriteSpec(d: Disk, id: string, name: string, content: string, env: Environment): (Option<string>, Disk) {
    if env.writeError(name).Some? then (env.writeError(name), d)
    else (None, d.(files := d.files[(id, name) := content]))
  }

  function ReadSpec(d: Disk, id: string, name: string, env: Environment): Result<string> {
    if env.readError(name).Some? then Err(env.readError(name).value)
    else if (id, name) in d.files then Ok(d.files[(id, name)])
    else Err(NoSuchFile)
  }

  class Workspace {
    var disk: Disk

    constructor(d: Disk)
      ensures disk == d
    {
      disk := d;
    }

    /** `os.MkdirAll` of a request directory. */
    method MkdirAll(id: string, env: Environment) returns (err: Option<string>)
      modifies this
      ensures (err, disk) == MkdirSpec(old(disk), id, env)
    {
      err := env.mkdirError;
      if err.None? {
        disk := disk.(dirs := disk.dirs + {id});
      }
    }

    /** `os.WriteFile` into a request directory. */
    method WriteFile(id: string, name: string, content: string, env: Environment) returns (err: Option<string>)
      modifies this
      ensures (err, disk) == WriteSpec(old(disk), id, name, content, env)
    {
      err := env.writeError(name);
      if err.None? {
        disk := disk.(files := disk.files[(id, name) := content]);
      }
    }

    /** `os.ReadFile` from a request directory. */
    method ReadFile(id: string, name: string, env: Environment) returns (r: Result<string>)
      ensures r == ReadSpec(disk, id, name, env)
    {
      if env.readError(name).Some? {
        return Err(env.readError(name).value);
      }
      if (id, name) in disk.files {
        return Ok(disk.files[(id, name)]);
      }
      return Err(NoSuchFile);
    }

    /** The engine process: when it leaves an output file, that file is now
        in the request directory. */
    method LaunchEngine(id: string, env: Environment)
      modifies this
      ensures disk == EngineEffect(old(disk), id, env)
    {
      if env.engineOutput.Some? {
        disk := disk.(files := disk.files[(id, OutputFileName) := env.engineOutput.value]);
      }
    }
  }

  function EngineEffect(d: Disk, id: string, env: Environment): Disk {
    if env.engineOutput.Some? then d.(files := d.files[(id, OutputFileName) := env.engineOutput.value]) else d
  }

  // ---------------------------------------------------------------------------
  // ValidateRequest, GetStatus, createErrorResponse
  // ---------------------------------------------------------------------------

  const Methods: seq<string> := ["GFN1-xTB", "GFN2-xTB"]

  /** `ValidateRequest`: the first failing check's message, `None` for Go's nil. */
  function ValidateRequest(request: OptimizationRequest): (r: Option<string>)
    ensures r.Some? ==> r.value in {"request ID is required", "structure file is required", "invalid method: " + request.methodName, "fmax must be positive"}
  {
    if request.requestId == "" then Some("request ID is required")
    else if request.structureFile == "" then Some("structure file is required")
    else if request.methodName != "GFN1-xTB" && request.methodName != "GFN2-xTB" then Some("invalid method: " + request.methodName)
    else if request.fmax <= 0.0 then Some("fmax must be positive")
    else None
  }

  /** A request passes exactly when it has an id and a structure, names one
      of the two methods and asks for a positive force threshold; each
      message is given exactly when its check fails and the earlier ones
      pass. */
  lemma ValidRequestIff(request: OptimizationRequest)
    ensures ValidateRequest(request).None? <==>
      request.requestId != "" && request.structureFile != "" && request.methodName in Methods && request.fmax > 0.0
    ensures ValidateRequest(request) == Some("request ID is required") <==> request.requestId == ""
    ensures ValidateRequest(request) == Some("structure file is required") <==>
      request.requestId != "" && request.structureFile == ""
    ensures ValidateRequest(request) == Some("invalid method: " + request.methodName) <==>
      request.requestId != "" && request.structureFile != "" && request.methodName !in Methods
    ensures ValidateRequest(request) == Some("fmax must be positive") <==>
      request.requestId != "" && request.structureFile != "" && request.methodName in Methods && request.fmax <= 0.0
  {
    assert ("invalid method: " + request.methodName)[0] == 'i';
  }

  /** An unknown method and a zero threshold are both turned away. */
  lemma RejectedRequests(id: string, structure: string, filename: string)
    requires id != "" && structure != ""
    ensures ValidateRequest(OptimizationRequest(id, structure, "BAD-METHOD", 0.01, filename)) == Some("invalid method: BAD-METHOD")
    ensures ValidateRequest(OptimizationRequest(id, structure, "GFN2-xTB", 0.0, filename)) == Some("fmax must be positive")
  {
    assert "invalid method: " + "BAD-METHOD" == "invalid method: BAD-METHOD";
  }

  /** `GetStatus`: `not_found` without the request directory, `running`
      while `dftb_out.hsd` is missing (whatever `error.log` says), then
      `error` or `completed` by `error.log`. */
  function GetStatus(d: Disk, id: string): (status: string)
    ensures status == "not_found" <==> id !in d.dirs
    ensures status == "running" <==> id in d.dirs && (id, OutputFileName) !in d.files
    ensures status == "error" <==> id in d.dirs && (id, OutputFileName) in d.files && (id, ErrorLogName) in d.files
    ensures status == "completed" <==> id in d.dirs && (id, OutputFileName) in d.files && (id, ErrorLogName) !in d.files
  {
    if id !in d.dirs then "not_found"
    else if (id, OutputFileName) !in d.files then "running"
    else if (id, ErrorLogName) in d.files then "error"
    else "completed"
  }

  /** `createErrorResponse`. */
  function ErrorResponse(id: string, message: string): (r: RunResult)
    ensures r.Responded? && r.response.status == "error" && r.response.requestId == id
    ensures r.response.errorMessage == message && r.response.parsedData.None? && r.response.outputCifPath == ""
  {
    Responded(OptimizationResponse("error", id, None, "", message))
  }

  // ---------------------------------------------------------------------------
  // The stages of RunOptimization
  // ---------------------------------------------------------------------------

  /** `generateInputFiles`: `dftb_in.hsd`, then `geometry.gen`. */
  function InputFilesSpec(d: Disk, id: string, input: DftbInput, env: Environment, r: Renderers): (Option<string>, Disk) {
    var (e1, d1) := WriteSpec(d, id, InputFileName, r.inputDeck(input), env);
    if e1.Some? then (Some("failed to write input file: " + e1.value), d1)
    else
      var (e2, d2) := WriteSpec(d1, id, GeometryFileName, r.geometry(input), env);
      if e2.Some? then (Some("failed to write geometry file: " + e2.value), d2) else (None, d2)
  }

  method GenerateInputFiles(ws: Workspace, id: string, input: DftbInput, env: Environment) returns (err: Option<string>)
    requires Renderable(input)
    modifies ws
    ensures (err, ws.disk) == InputFilesSpec(old(ws.disk), id, input, env, ServiceRenderers(env))
  {
    var inputLines := GenerateDftbInputContent(input, env.formatFloat);
    err := ws.WriteFile(id, InputFileName, Text(inputLines), env);
    if err.Some? {
      return Some("failed to write input file: " + err.value);
    }
    var geometryLines := GenerateGeometryContent(input, env.formatFloat);
    err := ws.WriteFile(id, GeometryFileName, Text(geometryLines), env);
    if err.Some? {
      return Some("failed to write geometry file: " + err.value);
    }
  }

  /** `runDFTBCalculation`: a missing executable stops before launch; after
      the run, a timeout, a run error and a missing output file are errors
      in that order; otherwise the output file's path. */
  function CalculationSpec(d: Disk, id: string, config: ServerConfig, env: Environment): (Result<(string, string)>, Disk) {
    if !env.executableExists then (Err("DFTB+ executable not found at: " + config.dftbPath), d)
    else
      var d1 := EngineEffect(d, id, env);
      match env.engine
      case TimedOut => (Err("DFTB+ calculation timed out after " + IntToDecimal(config.timeout) + " seconds"), d1)
      case RunError(e) => (Err("DFTB+ calculation failed: " + e), d1)
      case CleanExit =>
        if (id, OutputFileName) !in d1.files then (Err("DFTB+ output file not found"), d1)
        else (Ok((id, OutputFileName)), d1)
  }

  method RunDftbCalculation(ws: Workspace, id: string, config: ServerConfig, env: Environment) returns (r: Result<(string, string)>)
    modifies ws
    ensures (r, ws.disk) == CalculationSpec(old(ws.disk), id, config, env)
  {
    if !env.executableExists {
      return Err("DFTB+ executable not found at: " + config.dftbPath);
    }
    ws.LaunchEngine(id, env);
    match env.engine {
      case TimedOut =>
        return Err("DFTB+ calculation timed out after " + IntToDecimal(config.timeout) + " seconds");
      case RunError(e) =>
        return Err("DFTB+ calculation failed: " + e);
      case CleanExit =>
    }
    if (id, OutputFileName) !in ws.disk.files {
      return Err("DFTB+ output file not found");
    }
    return Ok((id, OutputFileName));
  }

  /** The run succeeds exactly when the executable is there, the process
      exits cleanly and `dftb_out.hsd` is then present (left by this run or
      by an earlier one); the process is launched only when the executable
      is there; each failure carries its own message. */
  lemma CalculationOutcome(d: Disk, id: string, config: ServerConfig, env: Environment)
    ensures var (r, d1) := CalculationSpec(d, id, config, env);
      (r.Ok? <==> env.executableExists && env.engine.CleanExit?
                  && (env.engineOutput.Some? || (id, OutputFileName) in d.files))
      && (r.Ok? ==> r.value == (id, OutputFileName) && (id, OutputFileName) in d1.files)
      && (!env.executableExists ==> d1 == d && r == Err("DFTB+ executable not found at: " + config.dftbPath))
      && (env.executableExists && env.engine.TimedOut? ==>
            r == Err("DFTB+ calculation timed out after " + IntToDecimal(config.timeout) + " seconds"))
      && (env.executableExists && env.engine.RunError? ==> r == Err("DFTB+ calculation failed: " + env.engine.message))
      && (env.executableExists && env.engine.CleanExit? && env.engineOutput.None? && (id, OutputFileName) !in d.files ==>
            r == Err("DFTB+ output file not found"))
  {
  }

  /** `RunOptimization` wraps every calculation error in its own
      `DFTB+ calculation failed: ` prefix, on top of the one
      `runDFTBCalculation` gives the engine's error, which therefore carries
      it twice. */
  lemma EngineErrorPrefixedTwice(d: Disk, id: string, config: ServerConfig, env: Environment, r: Renderers, cif: CifFile)
    requires env.executableExists && env.engine.RunError?
    ensures AfterInputFiles(d, id, config, env, r, cif).0
      == ErrorResponse(id, "DFTB+ calculation failed: DFTB+ calculation failed: " + env.engine.message)
  {
    var c := CalculationSpec(d, id, config, env).0;
    assert c == Err("DFTB+ calculation failed: " + env.engine.message);
    assert "DFTB+ calculation failed: " + c.message
      == "DFTB+ calculation failed: DFTB+ calculation failed: " + env.engine.message;
  }

  /** The record `parseDFTBOutput` returns whatever the file says. */
  const PlaceholderOutput := ParsedOutput([], "converged", "completed", true, -100.0, -3.6749, -5.0, 0.0, Vec3(0.0, 0.0, 0.0))

  function ParseOutputSpec(d: Disk, path: (string, string), env: Environment): (r: Result<ParsedOutput>)
    ensures r.Ok? ==> r.value == PlaceholderOutput
    ensures r.Err? <==> ReadSpec(d, path.0, path.1, env).Err?
  {
    match ReadSpec(d, path.0, path.1, env)
    case Err(e) => Err("failed to read output file: " + e)
    case Ok(_) => Ok(PlaceholderOutput)
  }

  /** `parseDFTBOutput`: read the file, then return the fixed record. */
  method ParseDftbOutput(ws: Workspace, path: (string, string), env: Environment) returns (r: Result<ParsedOutput>)
    ensures r == ParseOutputSpec(ws.disk, path, env)
  {
    var content := ws.ReadFile(path.0, path.1, env);
    if content.Err? {
      return Err("failed to read output file: " + content.message);
    }
    return Ok(PlaceholderOutput);
  }

  /** Go's `range` over a map visits every key exactly once; the
      environment's iteration order does so for every map. */
  ghost predicate RangesOverMaps(env: Environment) {
    forall m: map<string, real> :: Enumerates(env.mapOrder(m), m)
  }

  /** The text of `optimized.cif` for a parsed structure. */
  function OptimizedCifText(cif: CifFile, env: Environment): string {
    var block := cif.dataBlock;
    Text(OptimizedCifLines(block, env.date, env.mapOrder(block.cellLength), env.mapOrder(block.cellAngle), env.formatFloat))
  }

  /** Under Go's map iteration, the cell lines of `optimized.cif` hold one
      line per cell length and per cell angle of the parsed block, with
      every entry's line among them. */
  lemma OptimizedCifCells(cif: CifFile, env: Environment)
    requires RangesOverMaps(env)
    ensures var block := cif.dataBlock;
      var lengths := CellLines(env.mapOrder(block.cellLength), block.cellLength, env.formatFloat);
      var angles := CellLines(env.mapOrder(block.cellAngle), block.cellAngle, env.formatFloat);
      |lengths| == |block.cellLength| && HasEveryEntry(lengths, block.cellLength, env.formatFloat)
      && |angles| == |block.cellAngle| && HasEveryEntry(angles, block.cellAngle, env.formatFloat)
  {
    var block := cif.dataBlock;
    assert Enumerates(env.mapOrder(block.cellLength), block.cellLength);
    assert Enumerates(env.mapOrder(block.cellAngle), block.cellAngle);
    CellLinesEnumerate(env.mapOrder(block.cellLength), block.cellLength, env.formatFloat);
    CellLinesEnumerate(env.mapOrder(block.cellAngle), block.cellAngle, env.formatFloat);
  }

  /** `generateOptimizedCIF`: write the text, return its path. */
  function OptimizedCifSpec(d: Disk, id: string, cif: CifFile, env: Environment, r: Renderers): (Result<(string, string)>, Disk) {
    var (e, d1) := WriteSpec(d, id, OptimizedFileName, r.optimizedCif(cif), env);
    if e.Some? then (Err("failed to write optimized CIF: " + e.value), d1) else (Ok((id, OptimizedFileName)), d1)
  }

  method GenerateOptimizedCif(ws: Workspace, id: string, cif: CifFile, env: Environment) returns (r: Result<(string, string)>)
    requires RangesOverMaps(env)
    modifies ws
    ensures (r, ws.disk) == OptimizedCifSpec(old(ws.disk), id, cif, env, ServiceRenderers(env))
  {
    var block := cif.dataBlock;
    var lines := GenerateOptimizedCifContent(block, env.date, env.mapOrder(block.cellLength), env.mapOrder(block.cellAngle), env.formatFloat);
    var err := ws.WriteFile(id, OptimizedFileName, Text(lines), env);
    if err.Some? {
      return Err("failed to write optimized CIF: " + err.value);
    }
    return Ok((id, OptimizedFileName));
  }

  /** `CIFParser.ReadFromFile`. */
  function ReadFromFileSpec(d: Disk, path: (string, string), env: Environment): Result<string> {
    match ReadSpec(d, path.0, path.1, env)
    case Err(e) => Err("failed to read file: " + e)
    case Ok(content) => Ok(content)
  }

  method ReadFromFile(ws: Workspace, path: (string, string), env: Environment) returns (r: Result<string>)
    ensures r == ReadFromFileSpec(ws.disk, path, env)
  {
    r := ws.ReadFile(path.0, path.1, env);
    if r.Err? {
      return Err("failed to read file: " + r.message);
    }
  }

  // ---------------------------------------------------------------------------
  // RunOptimization
  // ---------------------------------------------------------------------------

  /** The pipeline: the request directory first (its failure is the only Go
      error), then parse, convert, input files, engine run, output parse,
      optimized CIF and its read-back, each failure answered by an error
      response that names the stage, and no later stage run. */
  function Pipeline(d: Disk, request: OptimizationRequest, config: ServerConfig, env: Environment, r: Renderers): (RunResult, Disk) {
    var (e, d1) := MkdirSpec(d, request.requestId, env);
    if e.Some? then (Failed("failed to create request directory: " + e.value), d1)
    else AfterMkdir(d1, request, config, env, r)
  }

  function AfterMkdir(d: Disk, request: OptimizationRequest, config: ServerConfig, env: Environment, r: Renderers): (RunResult, Disk) {
    var id := request.requestId;
    match ParseBase64Spec(request.structureFile, env.decodeBase64, env.parseFloat)
    case NilBlockPanic => (Panicked, d)
    case ParseError(e) => (ErrorResponse(id, "failed to parse CIF file: " + e), d)
    case Parsed(cif) =>
      match Convert(Some(cif), request.methodName, request.fmax)
      case Err(e) => (ErrorResponse(id, "failed to convert to DFTB+ input: " + e), d)
      case Ok(input) => AfterConvert(d, id, config, env, r, cif, input)
  }

  function AfterConvert(d: Disk, id: string, config: ServerConfig, env: Environment, r: Renderers, cif: CifFile, input: DftbInput): (RunResult, Disk) {
    var (w, d1) := InputFilesSpec(d, id, input, env, r);
    if w.Some? then (ErrorResponse(id, "failed to generate input files: " + w.value), d1)
    else AfterInputFiles(d1, id, config, env, r, cif)
  }

  function AfterInputFiles(d: Disk, id: string, config: ServerConfig, env: Environment, r: Renderers, cif: CifFile): (RunResult, Disk) {
    var (c, d1) := CalculationSpec(d, id, config, env);
    if c.Err? then (ErrorResponse(id, "DFTB+ calculation failed: " + c.message), d1)
    else AfterCalculation(d1, id, env, r, cif, c.value)
  }

  function AfterCalculation(d: Disk, id: string, env: Environment, r: Renderers, cif: CifFile, outputPath: (string, string)): (RunResult, Disk) {
    match ParseOutputSpec(d, outputPath, env)
    case Err(e) => (ErrorResponse(id, "failed to parse DFTB+ output: " + e), d)
    case Ok(parsed) => AfterOutputParse(d, id, env, r, cif, parsed)
  }

  function AfterOutputParse(d: Disk, id: string, env: Environment, r: Renderers, cif: CifFile, parsed: ParsedOutput): (RunResult, Disk) {
    var (o, d1) := OptimizedCifSpec(d, id, cif, env, r);
    if o.Err? then (ErrorResponse(id, "failed to generate optimized CIF: " + o.message), d1)
    else (ReadBack(d1, id, env, parsed, o.value), d1)
  }

  function ReadBack(d: Disk, id: string, env: Environment, parsed: ParsedOutput, path: (string, string)): RunResult {
    match ReadFromFileSpec(d, path, env)
    case Err(e) => ErrorResponse(id, "failed to read optimized CIF: " + e)
    case Ok(content) => Responded(OptimizationResponse("success", id, Some(parsed), env.encodeBase64(content), ""))
  }

  /** `RunOptimization`. */
  method RunOptimization(ws: Workspace, request: OptimizationRequest, config: ServerConfig, env: Environment) returns (r: RunResult)
    requires RangesOverMaps(env)
    modifies ws
    ensures (r, ws.disk) == Pipeline(old(ws.disk), request, config, env, ServiceRenderers(env))
  {
    ghost var rs := ServiceRenderers(env);
    var id := request.requestId;
    var mkdirErr := ws.MkdirAll(id, env);
    if mkdirErr.Some? {
      return Failed("failed to create request directory: " + mkdirErr.value);
    }
    ghost var afterMkdir := ws.disk;
    assert Pipeline(old(ws.disk), request, config, env, rs) == AfterMkdir(afterMkdir, request, config, env, rs);

    var parsed := ParseFromBase64(request.structureFile, env.decodeBase64, env.parseFloat);
    if parsed.NilBlockPanic? {
      return Panicked;
    }
    if parsed.ParseError? {
      return ErrorResponse(id, "failed to parse CIF file: " + parsed.message);
    }
    var cif := parsed.cif;

    var converted := ToDftbInput(Some(cif), request.methodName, request.fmax);
    if converted.Err? {
      return ErrorResponse(id, "failed to convert to DFTB+ input: " + converted.message);
    }
    var input := converted.value;
    ConvertedInputRenders(cif, request.methodName, request.fmax);
    assert AfterMkdir(afterMkdir, request, config, env, rs) == AfterConvert(afterMkdir, id, config, env, rs, cif, input);

    var writeErr := GenerateInputFiles(ws, id, input, env);
    if writeErr.Some? {
      return ErrorResponse(id, "failed to generate input files: " + writeErr.value);
    }
    ghost var afterInput := ws.disk;
    assert AfterConvert(afterMkdir, id, config, env, rs, cif, input) == AfterInputFiles(afterInput, id, config, env, rs, cif);

    var outputPath := RunDftbCalculation(ws, id, config, env);
    if outputPath.Err? {
      return ErrorResponse(id, "DFTB+ calculation failed: " + outputPath.message);
    }
    assert AfterInputFiles(afterInput, id, config, env, rs, cif) == AfterCalculation(ws.disk, id, env, rs, cif, outputPath.value);

    var parsedData := ParseDftbOutput(ws, outputPath.value, env);
    if parsedData.Err? {
      return ErrorResponse(id, "failed to parse DFTB+ output: " + parsedData.message);
    }
    ghost var afterCalculation := ws.disk;
    assert AfterCalculation(afterCalculation, id, env, rs, cif, outputPath.value)
        == AfterOutputParse(afterCalculation, id, env, rs, cif, parsedData.value);

    var optimizedPath := GenerateOptimizedCif(ws, id, cif, env);
    if optimizedPath.Err? {
      return ErrorResponse(id, "failed to generate optimized CIF: " + optimizedPath.message);
    }
    assert AfterOutputParse(afterCalculation, id, env, rs, cif, parsedData.value)
        == (ReadBack(ws.disk, id, env, parsedData.value, optimizedPath.value), ws.disk);

    var content := ReadFromFile(ws, optimizedPath.value, env);
    if content.Err? {
      return ErrorResponse(id, "failed to read optimized CIF: " + content.message);
    }
    return Responded(OptimizationResponse("success", id, Some(parsedData.value), env.encodeBase64(content.value), ""));
  }

  // ---------------------------------------------------------------------------
  // What a run leaves behind
  // ---------------------------------------------------------------------------

  /** The files a run may write in its request directory. */
  const RunFiles := {InputFileName, GeometryFileName, OutputFileName, OptimizedFileName}

  /** `d1` is `d` with at most the request directory added and at most the
      run's own files of request `id` written: no file disappears, and every
      other file keeps its content. */
  predicate WritesOnly(d: Disk, d1: Disk, id: string) {
    d.dirs <= d1.dirs <= d.dirs + {id}
    && (forall k :: k in d.files ==> k in d1.files)
    && (forall k :: k in d1.files ==> (k in d.files && d1.files[k] == d.files[k]) || (k.0 == id && k.1 in RunFiles))
  }

  lemma WritesOnlyTrans(d: Disk, d1: Disk, d2: Disk, id: string)
    requires WritesOnly(d, d1, id) && WritesOnly(d1, d2, id)
    ensures WritesOnly(d, d2, id)
  {
  }

  /** Writing one of the run's own files of request `id`. */
  lemma WriteRunFile(d: Disk, id: string, name: string, content: string)
    requires name in RunFiles
    ensures WritesOnly(d, d.(files := d.files[(id, name) := content]), id)
  {
  }

  lemma EngineWritesOnly(d: Disk, id: string, env: Environment)
    ensures WritesOnly(d, EngineEffect(d, id, env), id)
  {
    if env.engineOutput.Some? {
      WriteRunFile(d, id, OutputFileName, env.engineOutput.value);
    }
  }

  /** The calculation's only effect on the disk is the engine's output file. */
  lemma CalculationDisk(d: Disk, id: string, config: ServerConfig, env: Environment)
    ensures CalculationSpec(d, id, config, env).1 == if env.executableExists then EngineEffect(d, id, env) else d
  {
  }

  /** A response to request `id`: `success`, or `error` with no record and
      no structure. */
  predicate ResponseFor(res: RunResult, id: string) {
    res.Responded? && res.response.requestId == id
    && (res.response.status == "success" || res.response.status == "error")
    && (res.response.status == "error" ==> res.response.parsedData.None? && res.response.outputCifPath == "")
  }

  /** A success leaves the engine output and the optimized CIF in the request
      directory and carries the placeholder record and the base64 of the
      optimized CIF's text. */
  predicate SuccessFor(res: RunResult, d1: Disk, id: string, env: Environment, r: Renderers, cif: CifFile) {
    res.Responded? && res.response.status == "success" ==>
      (id, OutputFileName) in d1.files && (id, OptimizedFileName) in d1.files
      && res.response.parsedData == Some(PlaceholderOutput)
      && res.response.outputCifPath == env.encodeBase64(r.optimizedCif(cif))
      && res.response.errorMessage == ""
  }

  lemma AfterOutputParseOutcome(d: Disk, id: string, env: Environment, r: Renderers, cif: CifFile)
    requires (id, OutputFileName) in d.files
    ensures var (res, d1) := AfterOutputParse(d, id, env, r, cif, PlaceholderOutput);
      WritesOnly(d, d1, id) && ResponseFor(res, id) && SuccessFor(res, d1, id, env, r, cif)
  {
    var (e, d1) := WriteSpec(d, id, OptimizedFileName, r.optimizedCif(cif), env);
    if e.None? {
      WriteRunFile(d, id, OptimizedFileName, r.optimizedCif(cif));
    }
  }

  lemma AfterCalculationOutcome(d: Disk, id: string, env: Environment, r: Renderers, cif: CifFile)
    requires (id, OutputFileName) in d.files
    ensures var (res, d1) := AfterCalculation(d, id, env, r, cif, (id, OutputFileName));
      WritesOnly(d, d1, id) && ResponseFor(res, id) && SuccessFor(res, d1, id, env, r, cif)
  {
    if ParseOutputSpec(d, (id, OutputFileName), env).Ok? {
      AfterOutputParseOutcome(d, id, env, r, cif);
    }
  }

  /** From the calculation on, every outcome is a response to the request. */
  lemma AfterInputFilesOutcome(d: Disk, id: string, config: ServerConfig, env: Environment, r: Renderers, cif: CifFile)
    ensures var (res, d1) := AfterInputFiles(d, id, config, env, r, cif);
      WritesOnly(d, d1, id) && ResponseFor(res, id) && SuccessFor(res, d1, id, env, r, cif)
  {
    CalculationDisk(d, id, config, env);
    EngineWritesOnly(d, id, env);
    CalculationOutcome(d, id, config, env);
    var (c, d1) := CalculationSpec(d, id, config, env);
    if c.Ok? {
      AfterCalculationOutcome(d1, id, env, r, cif);
      WritesOnlyTrans(d, d1, AfterCalculation(d1, id, env, r, cif, c.value).1, id);
    }
  }

  lemma InputFilesWritesOnly(d: Disk, id: string, input: DftbInput, env: Environment, r: Renderers)
    ensures WritesOnly(d, InputFilesSpec(d, id, input, env, r).1, id)
  {
    var (e1, d1) := WriteSpec(d, id, InputFileName, r.inputDeck(input), env);
    if e1.None? {
      WriteRunFile(d, id, InputFileName, r.inputDeck(input));
      var (e2, d2) := WriteSpec(d1, id, GeometryFileName, r.geometry(input), env);
      if e2.None? {
        WriteRunFile(d1, id, GeometryFileName, r.geometry(input));
        WritesOnlyTrans(d, d1, d2, id);
      }
    }
  }

  lemma AfterConvertOutcome(d: Disk, id: string, config: ServerConfig, env: Environment, r: Renderers, cif: CifFile, input: DftbInput)
    ensures var (res, d1) := AfterConvert(d, id, config, env, r, cif, input);
      WritesOnly(d, d1, id) && ResponseFor(res, id) && SuccessFor(res, d1, id, env, r, cif)
  {
    InputFilesWritesOnly(d, id, input, env, r);
    var (w, d1) := InputFilesSpec(d, id, input, env, r);
    if w.None? {
      AfterInputFilesOutcome(d1, id, config, env, r, cif);
      WritesOnlyTrans(d, d1, AfterInputFiles(d1, id, config, env, r, cif).1, id);
    }
  }

  /** Once the request directory exists: the parser's panic, or a response
      to the request; a structure that does not parse leaves the disk as it
      was, and a success is a success for the parsed structure. */
  lemma AfterMkdirOutcome(d: Disk, request: OptimizationRequest, config: ServerConfig, env: Environment, r: Renderers)
    ensures var (res, d1) := AfterMkdir(d, request, config, env, r);
      var parsed := ParseBase64Spec(request.structureFile, env.decodeBase64, env.parseFloat);
      WritesOnly(d, d1, request.requestId)
      && (res.Panicked? <==> parsed.NilBlockPanic?)
      && (res.Panicked? || ResponseFor(res, request.requestId))
      && (!parsed.Parsed? ==> d1 == d)
      && (res.Responded? && res.response.status == "success" ==>
            parsed.Parsed? && SuccessFor(res, d1, request.requestId, env, r, parsed.cif))
  {
    var parsed := ParseBase64Spec(request.structureFile, env.decodeBase64, env.parseFloat);
    if parsed.Parsed? {
      var converted := Convert(Some(parsed.cif), request.methodName, request.fmax);
      if converted.Ok? {
        AfterConvertOutcome(d, request.requestId, config, env, r, parsed.cif, converted.value);
      }
    }
  }

  /** `RunOptimization` returns a Go error exactly when the request directory
      cannot be created, and then nothing was written; otherwise the
      directory exists, only the run's own files of the request were written
      (never `error.log`), and the outcome is the parser's panic or a
      response to the request. */
  lemma PipelineOutcome(d: Disk, request: OptimizationRequest, config: ServerConfig, env: Environment, r: Renderers)
    ensures var (res, d1) := Pipeline(d, request, config, env, r);
      var id := request.requestId;
      (res.Failed? <==> env.mkdirError.Some?)
      && (res.Failed? ==> d1 == d && res.error == "failed to create request directory: " + env.mkdirError.value)
      && (!res.Failed? ==> id in d1.dirs && (res.Panicked? || ResponseFor(res, id)))
      && WritesOnly(d, d1, id)
  {
    var (e, d1) := MkdirSpec(d, request.requestId, env);
    if e.None? {
      AfterMkdirOutcome(d1, request, config, env, r);
      WritesOnlyTrans(d, d1, AfterMkdir(d1, request, config, env, r).1, request.requestId);
    }
  }

  /** A run never creates or removes an `error.log`, in any request. */
  lemma PipelineKeepsErrorLog(d: Disk, request: OptimizationRequest, config: ServerConfig, env: Environment, r: Renderers)
    ensures var d1 := Pipeline(d, request, config, env, r).1;
      forall k: (string, string) :: k.1 == ErrorLogName ==> (k in d1.files <==> k in d.files)
  {
    var d1 := Pipeline(d, request, config, env, r).1;
    PipelineOutcome(d, request, config, env, r);
    WritesOnlyKeepsErrorLog(d, d1, request.requestId);
  }

  lemma WritesOnlyKeepsErrorLog(d: Disk, d1: Disk, id: string)
    requires WritesOnly(d, d1, id)
    ensures forall k: (string, string) :: k.1 == ErrorLogName ==> (k in d1.files <==> k in d.files)
  {
  }

  /** After writing only the run's files into an existing request directory
      without an `error.log`, the request is `running` or `completed`, and
      `completed` once `dftb_out.hsd` is there. */
  lemma StatusAfterWrites(d: Disk, d1: Disk, id: string)
    requires WritesOnly(d, d1, id) && id in d1.dirs && (id, ErrorLogName) !in d.files
    ensures GetStatus(d1, id) == "running" || GetStatus(d1, id) == "completed"
    ensures (id, OutputFileName) in d1.files ==> GetStatus(d1, id) == "completed"
  {
    WritesOnlyKeepsErrorLog(d, d1, id);
  }

  /** A successful run answers with the placeholder record and the base64 of
      the optimized CIF written for the parsed structure. */
  lemma PipelineSuccess(d: Disk, request: OptimizationRequest, config: ServerConfig, env: Environment, r: Renderers)
    ensures var (res, d1) := Pipeline(d, request, config, env, r);
      var parsed := ParseBase64Spec(request.structureFile, env.decodeBase64, env.parseFloat);
      res.Responded? && res.response.status == "success" ==>
        parsed.Parsed? && SuccessFor(res, d1, request.requestId, env, r, parsed.cif)
  {
    var (e, d1) := MkdirSpec(d, request.requestId, env);
    if e.None? {
      AfterMkdirOutcome(d1, request, config, env, r);
    }
  }

  /** What `GetStatus` reports after a run, when the request has no
      `error.log`: unchanged after a Go error, otherwise `running` or
      `completed`, and `completed` after a success. A failed run is never
      reported as `error`. */
  lemma StatusAfterRun(d: Disk, request: OptimizationRequest, config: ServerConfig, env: Environment, r: Renderers)
    requires (request.requestId, ErrorLogName) !in d.files
    ensures var (res, d1) := Pipeline(d, request, config, env, r);
      var status := GetStatus(d1, request.requestId);
      (res.Failed? ==> status == GetStatus(d, request.requestId))
      && (!res.Failed? ==> status == "running" || status == "completed")
      && (res.Responded? && res.response.status == "success" ==> status == "completed")
  {
    var d1 := Pipeline(d, request, config, env, r).1;
    PipelineOutcome(d, request, config, env, r);
    PipelineSuccess(d, request, config, env, r);
    if env.mkdirError.None? {
      StatusAfterWrites(d, d1, request.requestId);
    }
  }

  /** A structure that does not parse is answered with an error response (or
      the panic), yet the request then stays `running`, when it had no
      output file before. */
  lemma ParseFailureShowsRunning(d: Disk, request: OptimizationRequest, config: ServerConfig, env: Environment, r: Renderers)
    requires env.mkdirError.None?
    requires !ParseBase64Spec(request.structureFile, env.decodeBase64, env.parseFloat).Parsed?
    requires (request.requestId, OutputFileName) !in d.files
    ensures var (res, d1) := Pipeline(d, request, config, env, r);
      d1 == d.(dirs := d.dirs + {request.requestId})
      && (res.Panicked? || res.response.status == "error")
      && GetStatus(d1, request.requestId) == "running"
  {
    var d1 := d.(dirs := d.dirs + {request.requestId});
    AfterMkdirOutcome(d1, request, config, env, r);
  }
}
