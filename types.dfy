/** The service's records, mirroring go-service/internal/types/types.go.
    Go's float64 is modelled as `real`; a Go map that was never allocated
    reads like an empty map, so both are the empty `map` here. */
module Types {
  import opened Wrappers

  /** One atom of a structure (`types.AtomSite`). */
  datatype AtomSite = AtomSite(
    siteLabel: string,  // `Label` (`label` is a Dafny keyword)
    typeSymbol: string,
    fractX: real,
    fractY: real,
    fractZ: real,
    uIsoOrEquiv: real,
    adpType: string)

  /** The zero value of `types.AtomSite`. */
  const EmptyAtomSite := AtomSite("", "", 0.0, 0.0, 0.0, 0.0, "")

  /** One symmetry operator of a structure (`types.SymmetryOperation`). */
  datatype SymmetryOperation = SymmetryOperation(x: string, y: string, z: string)

  const EmptySymmetryOperation := SymmetryOperation("", "", "")

  /** The single data block of a parsed CIF file. */
  datatype DataBlock = DataBlock(
    name: string,
    cellLength: map<string, real>,
    cellAngle: map<string, real>,
    atomSites: seq<AtomSite>,
    symmetry: seq<SymmetryOperation>,
    metadata: map<string, string>)

  /** A block as `data_<name>` starts it: every collection empty. */
  function NewDataBlock(name: string): DataBlock {
    DataBlock(name, map[], map[], [], [], map[])
  }

  /** `types.CIFFile`. */
  datatype CifFile = CifFile(dataBlock: DataBlock)

  /** The zero value of `types.CIFFile`: a nameless, empty block. */
  const EmptyCifFile := CifFile(NewDataBlock(""))

  datatype Vec3 = Vec3(x: real, y: real, z: real)

  /** A 3x3 matrix given by its rows (`[3][3]float64`). */
  datatype Mat3 = Mat3(row0: Vec3, row1: Vec3, row2: Vec3)

  datatype Geometry = Geometry(
    periodic: bool,
    latticeVectors: Mat3,
    elements: seq<string>,
    coordinates: seq<Vec3>)

  datatype Hamiltonian = Hamiltonian(methodName: string)

  datatype Analysis = Analysis(forces: bool)

  datatype Options = Options(fmax: real)

  /** `types.DFTBInput`: what the engine-input files are rendered from. */
  datatype DftbInput = DftbInput(
    geometry: Geometry,
    hamiltonian: Hamiltonian,
    analysis: Analysis,
    options: Options)

  /** `types.OptimizationRequest`. */
  datatype OptimizationRequest = OptimizationRequest(
    requestId: string,
    structureFile: string,
    methodName: string,
    fmax: real,
    originalFilename: string)

  /** The record `parseDFTBOutput` produces (the `parsed_data` map). */
  datatype ParsedOutput = ParsedOutput(
    warnings: seq<string>,
    convergenceStatus: string,
    calculationStatus: string,
    sccConverged: bool,
    totalEnergyEV: real,
    totalEnergyHartree: real,
    fermiLevelEV: real,
    totalCharge: real,
    dipoleMomentDebye: Vec3)

  /** `types.OptimizationResponse`; an absent `parsed_data` is `None`. */
  datatype OptimizationResponse = OptimizationResponse(
    status: string,
    requestId: string,
    parsedData: Option<ParsedOutput>,
    outputCifPath: string,
    errorMessage: string)

  /** `types.ServerConfig`. */
  datatype ServerConfig = ServerConfig(
    port: int,
    workDir: string,
    dftbPath: string,
    maxRequests: int,
    timeout: int)

  /** The three printf conversions the service applies to floats. */
  datatype FloatFormat =
    | Fixed6        // %.6f
    | Width12Prec8  // %12.8f
    | Width8Prec6   // %8.6f
}
