/** The engine-input and result texts the runner writes
    (go-service/internal/dftb/runner.go): `dftb_in.hsd`
    (`generateDFTBInputContent`), `geometry.gen` (`generateGeometryContent`)
    and `optimized.cif` (`generateOptimizedCIF`).

    A text is modelled as its lines; the file holds each line followed by a
    newline (`Text`). Go's `%.6f`, `%12.8f` and `%8.6f` are the parameter
    `formatFloat`. */
module DftbRender {
  import opened Wrappers
  import opened GoStrings
  import opened Types
  import opened CifConvert

  /** The file content of a sequence of lines: each line ends with a newline. */
  function Text(lines: seq<string>): string {
    if lines == [] then "" else Text(lines[..|lines| - 1]) + lines[|lines| - 1] + "\n"
  }

  // ---------------------------------------------------------------------------
  // dftb_in.hsd
  // ---------------------------------------------------------------------------

  /** The angular-momentum shell written for an element: `s` for hydrogen,
      `p` for C, N, O and F, `d` for Si, P, S and Cl, and `p` for anything
      else. */
  function Shell(element: string): char {
    if element == "H" then 's'
    else if element in ["C", "N", "O", "F"] then 'p'
    else if element in ["Si", "P", "S", "Cl"] then 'd'
    else 'p'
  }

  /** Only hydrogen gets an `s` shell and only the third-row four get `d`. */
  lemma ShellChoice(element: string)
    ensures Shell(element) == 's' <==> element == "H"
    ensures Shell(element) == 'd' <==> element in ["Si", "P", "S", "Cl"]
    ensures Shell(element) in "spd"
  {
  }

  function AngularMomentumLine(element: string): string {
    "    " + element + " = " + [Shell(element)]
  }

  /** One `MaxAngularMomentum` entry per element, in the elements' order. */
  function AngularMomentumLines(elements: seq<string>): (lines: seq<string>)
    ensures |lines| == |elements|
    ensures forall i :: 0 <= i < |elements| ==> lines[i] == AngularMomentumLine(elements[i])
  {
    if elements == [] then []
    else AngularMomentumLines(elements[..|elements| - 1]) + [AngularMomentumLine(elements[|elements| - 1])]
  }

  function HamiltonianHead(methodName: string): seq<string> {
    ["Geometry = GenFormat {", "  <<< geometry.gen", "}", "",
     "Hamiltonian = " + methodName + " {", "  MaxAngularMomentum {"]
  }

  function DriverLines(fmax: real, formatFloat: (FloatFormat, real) -> string): seq<string> {
    ["  }", "}", "",
     "Driver = GeometryOptimization {", "  Convergence = Grad {",
     "    MaxForceComponent = " + formatFloat(Fixed6, fmax),
     "  }", "  MaxSteps = 1000", "  MovedAtoms = 1:-1", "}", "",
     "Analysis = {"]
  }

  const ForcesLine := "  CalculateForces = Yes"

  function AnalysisLines(forces: bool): seq<string> {
    (if forces then [ForcesLine] else [])
    + ["  PrintEigenvalues = Yes", "  PrintBandStructure = No", "}", ""]
  }

  const OptionsLines: seq<string> := ["Options {", "  WriteDetailedOut = Yes", "  WriteResultsTag = Yes", "}"]

  /** The lines of `dftb_in.hsd` for an engine input. */
  function DftbInputLines(input: DftbInput, formatFloat: (FloatFormat, real) -> string): seq<string> {
    HamiltonianHead(input.hamiltonian.methodName)
    + AngularMomentumLines(input.geometry.elements)
    + DriverLines(input.options.fmax, formatFloat)
    + AnalysisLines(input.analysis.forces)
    + OptionsLines
  }

  /** `generateDFTBInputContent`: the builder appends the fixed head, one
      line per element, then the fixed tail. */
  method GenerateDftbInputContent(input: DftbInput, formatFloat: (FloatFormat, real) -> string) returns (lines: seq<string>)
    ensures lines == DftbInputLines(input, formatFloat)
  {
    lines := HamiltonianHead(input.hamiltonian.methodName);
    var elements := input.geometry.elements;
    var i := 0;
    while i < |elements|
      invariant 0 <= i <= |elements|
      invariant lines == HamiltonianHead(input.hamiltonian.methodName) + AngularMomentumLines(elements[..i])
    {
      assert elements[..i + 1][..i] == elements[..i];
      lines := lines + [AngularMomentumLine(elements[i])];
      i := i + 1;
    }
    assert elements[..i] == elements;
    lines := lines + DriverLines(input.options.fmax, formatFloat);
    if input.analysis.forces {
      lines := lines + [ForcesLine];
    }
    lines := lines + ["  PrintEigenvalues = Yes", "  PrintBandStructure = No", "}", ""];
    lines := lines + OptionsLines;
  }

  /** The method name follows `Hamiltonian = ` verbatim, and the
      `MaxAngularMomentum` block holds exactly one line per element, in the
      elements' order, before it closes. */
  lemma InputNamesMethodAndElements(input: DftbInput, formatFloat: (FloatFormat, real) -> string)
    ensures var lines := DftbInputLines(input, formatFloat);
      var n := |input.geometry.elements|;
      |lines| > 7 + n
      && lines[4] == "Hamiltonian = " + input.hamiltonian.methodName + " {"
      && lines[5] == "  MaxAngularMomentum {"
      && (forall i :: 0 <= i < n ==> lines[6 + i] == "    " + input.geometry.elements[i] + " = " + [Shell(input.geometry.elements[i])])
      && lines[6 + n] == "  }"
  {
    var lines := DftbInputLines(input, formatFloat);
    var n := |input.geometry.elements|;
    var head := HamiltonianHead(input.hamiltonian.methodName);
    var body := AngularMomentumLines(input.geometry.elements);
    assert lines == head + body + (DriverLines(input.options.fmax, formatFloat) + AnalysisLines(input.analysis.forces) + OptionsLines);
    forall i | 0 <= i < n ensures lines[6 + i] == body[i] {
    }
  }

  /** A line the forces switch could be confused with starts with two
      spaces followed by `Ca`; the switch line is the only such line. */
  predicate LooksLikeForcesLine(line: string) {
    |line| >= 4 && line[0] == ' ' && line[2] == 'C' && line[3] == 'a'
  }

  lemma FixedLinesAreNotForcesLine(methodName: string, fmax: real, formatFloat: (FloatFormat, real) -> string)
    ensures forall l :: l in HamiltonianHead(methodName) ==> !LooksLikeForcesLine(l)
    ensures forall l :: l in DriverLines(fmax, formatFloat) ==> !LooksLikeForcesLine(l)
    ensures forall l :: l in AnalysisLines(false) + OptionsLines ==> !LooksLikeForcesLine(l)
  {
    var h := "Hamiltonian = " + methodName + " {";
    assert h[0] == 'H';
    var d := "    MaxForceComponent = " + formatFloat(Fixed6, fmax);
    assert d[2] == ' ';
  }

  /** `CalculateForces = Yes` is written exactly when forces are requested. */
  lemma ForcesLineIffForces(input: DftbInput, formatFloat: (FloatFormat, real) -> string)
    ensures ForcesLine in DftbInputLines(input, formatFloat) <==> input.analysis.forces
  {
    var elements := input.geometry.elements;
    FixedLinesAreNotForcesLine(input.hamiltonian.methodName, input.options.fmax, formatFloat);
    assert LooksLikeForcesLine(ForcesLine);
    forall l | l in AngularMomentumLines(elements) ensures !LooksLikeForcesLine(l) {
      var i :| 0 <= i < |elements| && l == AngularMomentumLine(elements[i]);
      assert l[2] == ' ';
    }
    if input.analysis.forces {
      assert DftbInputLines(input, formatFloat)
        == (HamiltonianHead(input.hamiltonian.methodName) + AngularMomentumLines(elements) + DriverLines(input.options.fmax, formatFloat))
           + [ForcesLine] + (AnalysisLines(false) + OptionsLines);
    }
  }

  // ---------------------------------------------------------------------------
  // geometry.gen
  // ---------------------------------------------------------------------------

  function CoordinateLine(element: string, v: Vec3, formatFloat: (FloatFormat, real) -> string): string {
    element + " " + formatFloat(Width12Prec8, v.x) + " " + formatFloat(Width12Prec8, v.y) + " " + formatFloat(Width12Prec8, v.z)
  }

  /** The coordinate lines: atom `i` is labelled with element number
      `i mod |elements|`, not with its own type. With no elements and at
      least one atom Go divides by zero, so some element is required then. */
  function CoordinateLines(elements: seq<string>, coordinates: seq<Vec3>, formatFloat: (FloatFormat, real) -> string): (lines: seq<string>)
    requires |coordinates| == 0 || |elements| > 0
    ensures |lines| == |coordinates|
  {
    if coordinates == [] then []
    else
      var n := |coordinates| - 1;
      CoordinateLines(elements, coordinates[..n], formatFloat) + [CoordinateLine(elements[n % |elements|], coordinates[n], formatFloat)]
  }

  /** Line `i` belongs to atom `i`, labelled with element `i mod |elements|`. */
  lemma {:induction false} CoordinateLinesLabels(elements: seq<string>, coordinates: seq<Vec3>, formatFloat: (FloatFormat, real) -> string)
    requires |coordinates| == 0 || |elements| > 0
    ensures var lines := CoordinateLines(elements, coordinates, formatFloat);
      forall i :: 0 <= i < |coordinates| ==> lines[i] == CoordinateLine(elements[i % |elements|], coordinates[i], formatFloat)
  {
    if coordinates != [] {
      var n := |coordinates| - 1;
      CoordinateLinesLabels(elements, coordinates[..n], formatFloat);
    }
  }

  /** The lines of `geometry.gen`: the atom count with the flag `F`, the
      element names, then one line per atom. */
  function GeometryLines(input: DftbInput, formatFloat: (FloatFormat, real) -> string): seq<string>
    requires |input.geometry.coordinates| == 0 || |input.geometry.elements| > 0
  {
    [NatToDecimal(|input.geometry.coordinates|) + " F", Join(input.geometry.elements, " ")]
    + CoordinateLines(input.geometry.elements, input.geometry.coordinates, formatFloat)
  }

  /** `generateGeometryContent`. */
  method GenerateGeometryContent(input: DftbInput, formatFloat: (FloatFormat, real) -> string) returns (lines: seq<string>)
    requires |input.geometry.coordinates| == 0 || |input.geometry.elements| > 0
    ensures lines == GeometryLines(input, formatFloat)
  {
    var elements := input.geometry.elements;
    var coordinates := input.geometry.coordinates;
    lines := [NatToDecimal(|coordinates|) + " F", Join(elements, " ")];
    ghost var head := lines;
    var i := 0;
    while i < |coordinates|
      invariant 0 <= i <= |coordinates|
      invariant lines == head + CoordinateLines(elements, coordinates[..i], formatFloat)
    {
      var element := elements[i % |elements|];
      ghost var line := CoordinateLine(element, coordinates[i], formatFloat);
      assert CoordinateLines(elements, coordinates[..i + 1], formatFloat)
        == CoordinateLines(elements, coordinates[..i], formatFloat) + [line] by {
        assert coordinates[..i + 1][..i] == coordinates[..i];
      }
      lines := lines + [CoordinateLine(element, coordinates[i], formatFloat)];
      i := i + 1;
    }
    assert coordinates[..i] == coordinates;
  }

  /** The leading word of a text that starts with a space-free word and a space. */
  lemma {:induction false} WordBeforeSpace(w: string, rest: string)
    requires forall j :: 0 <= j < |w| ==> !IsSpace(w[j])
    ensures Word(w + " " + rest) == w
  {
    if w != [] {
      assert (w + " " + rest)[1..] == w[1..] + " " + rest;
      WordBeforeSpace(w[1..], rest);
    }
  }

  lemma {:induction false} DecimalHasNoSpace(n: nat)
    ensures forall j :: 0 <= j < |NatToDecimal(n)| ==> '0' <= NatToDecimal(n)[j] <= '9'
  {
    if n >= 10 {
      DecimalHasNoSpace(n / 10);
    }
  }

  /** The header line reads back as the atom count followed by the flag `F`,
      which is written whether or not the structure is periodic. */
  lemma GeometryHeaderReadsBack(input: DftbInput, formatFloat: (FloatFormat, real) -> string)
    requires |input.geometry.coordinates| == 0 || |input.geometry.elements| > 0
    ensures var header := GeometryLines(input, formatFloat)[0];
      var words := Fields(header);
      |words| == 2 && ParseDecimal(words[0]) == Some(|input.geometry.coordinates|) && words[1] == "F"
  {
    var n := |input.geometry.coordinates|;
    var d := NatToDecimal(n);
    DecimalHasNoSpace(n);
    DigitsNotSpace(d);
    FieldsAfterWord(d, "F");
    FlagFields();
    assert d + " F" == d + " " + "F";
    assert GeometryLines(input, formatFloat)[0] == d + " F";
    DecimalRoundTrip(n);
  }

  /** Decimal digits are not white space. */
  lemma DigitsNotSpace(d: string)
    requires forall j :: 0 <= j < |d| ==> '0' <= d[j] <= '9'
    ensures forall j :: 0 <= j < |d| ==> !IsSpace(d[j])
  {
    forall j | 0 <= j < |d| ensures !IsSpace(d[j]) {
      assert '0' <= d[j] <= '9';
    }
  }

  /** A non-empty space-free word followed by a space is the first field. */
  lemma FieldsAfterWord(w: string, rest: string)
    requires w != [] && forall j :: 0 <= j < |w| ==> !IsSpace(w[j])
    ensures Fields(w + " " + rest) == [w] + Fields(" " + rest)
  {
    var s := w + " " + rest;
    WordBeforeSpace(w, rest);
    assert !IsSpace(s[0]);
    assert s[|w|..] == " " + rest;
  }

  lemma FlagFields()
    ensures Fields(" F") == ["F"]
  {
    assert Fields(" F") == Fields("F");
    assert Word("F") == "F";
  }

  /** The line of atom `i` carries element number `i mod |elements|` and the
      atom's own coordinates, for every atom, in order. */
  lemma GeometryAtomLines(input: DftbInput, formatFloat: (FloatFormat, real) -> string)
    requires |input.geometry.coordinates| == 0 || |input.geometry.elements| > 0
    ensures var lines := GeometryLines(input, formatFloat);
      var es := input.geometry.elements;
      |lines| == 2 + |input.geometry.coordinates|
      && lines[1] == Join(es, " ")
      && forall i :: 0 <= i < |input.geometry.coordinates| ==>
           lines[2 + i] == CoordinateLine(es[i % |es|], input.geometry.coordinates[i], formatFloat)
  {
    CoordinateLinesLabels(input.geometry.elements, input.geometry.coordinates, formatFloat);
  }

  /** Every converted input meets the renderer's requirement: a structure
      with atoms has at least one element. */
  lemma ConvertedInputRenders(cif: CifFile, methodName: string, fmax: real)
    requires cif.dataBlock.name != ""
    ensures var g := InputOf(cif, methodName, fmax).geometry;
      |g.coordinates| == |cif.dataBlock.atomSites| && (|g.coordinates| == 0 || |g.elements| > 0)
  {
    ConvertedInput(cif, methodName, fmax);
    var sites := cif.dataBlock.atomSites;
    if |sites| > 0 {
      assert TypeSymbols(sites)[0] in TypeSymbols(sites);
    }
  }

  /** The labels do not follow the atoms: two sites of type `a` followed by
      one of type `b` give the elements `[a, b]`, and the second atom, of
      type `a`, is written with the label `b`. */
  lemma GeometryMislabelsAtoms(cif: CifFile, methodName: string, fmax: real)
    requires cif.dataBlock.name != ""
    requires var sites := cif.dataBlock.atomSites;
      |sites| == 3 && sites[0].typeSymbol == sites[1].typeSymbol && sites[1].typeSymbol != sites[2].typeSymbol
    ensures var g := InputOf(cif, methodName, fmax).geometry;
      var sites := cif.dataBlock.atomSites;
      g.elements == [sites[0].typeSymbol, sites[2].typeSymbol]
      && g.elements[1 % |g.elements|] != sites[1].typeSymbol
  {
    var sites := cif.dataBlock.atomSites;
    var a, b := sites[0].typeSymbol, sites[2].typeSymbol;
    var symbols := TypeSymbols(sites);
    assert symbols == [a, a, b];
    assert symbols[..1] == [a];
    assert symbols[..2] == [a, a];
    assert Distinct(symbols[..1]) == [a];
    assert Distinct(symbols[..2]) == [a];
    assert Distinct(symbols) == [a, b];
  }

  // ---------------------------------------------------------------------------
  // optimized.cif
  // ---------------------------------------------------------------------------

  /** One row of the optimized structure before formatting. */
  datatype OptimizedRow = OptimizedRow(siteLabel: string, typeSymbol: string, x: real, y: real, z: real, uIso: real)

  const Displacement: real := 0.001

  /** The row written for atom `i`: label and type copied, the coordinates
      pushed by `0.001 * (i + 1)`, `(i + 2)` and `(i + 3)`, and a zero
      displacement parameter replaced by 0.01. */
  function OptimizedRowOf(i: nat, site: AtomSite): OptimizedRow {
    OptimizedRow(site.siteLabel, site.typeSymbol,
      site.fractX + Displacement * (i + 1) as real,
      site.fractY + Displacement * (i + 2) as real,
      site.fractZ + Displacement * (i + 3) as real,
      if site.uIsoOrEquiv == 0.0 then 0.01 else site.uIsoOrEquiv)
  }

  /** The rows of all atoms, one per atom in order. */
  function OptimizedRows(sites: seq<AtomSite>): (rows: seq<OptimizedRow>)
    ensures |rows| == |sites|
    ensures forall i :: 0 <= i < |sites| ==> rows[i] == OptimizedRowOf(i, sites[i])
  {
    if sites == [] then []
    else OptimizedRows(sites[..|sites| - 1]) + [OptimizedRowOf(|sites| - 1, sites[|sites| - 1])]
  }

  /** What the optimized rows keep and what they change: each atom keeps its
      label and type, moves by a displacement that grows with its position,
      and never has a zero displacement parameter. */
  lemma OptimizedRowsShift(sites: seq<AtomSite>)
    ensures var rows := OptimizedRows(sites);
      forall i :: 0 <= i < |sites| ==>
        rows[i].siteLabel == sites[i].siteLabel && rows[i].typeSymbol == sites[i].typeSymbol
        && rows[i].x - sites[i].fractX == 0.001 * (i + 1) as real
        && rows[i].y - sites[i].fractY == 0.001 * (i + 2) as real
        && rows[i].z - sites[i].fractZ == 0.001 * (i + 3) as real
        && rows[i].uIso != 0.0
        && (sites[i].uIsoOrEquiv != 0.0 ==> rows[i].uIso == sites[i].uIsoOrEquiv)
  {
  }

  function RowText(row: OptimizedRow, formatFloat: (FloatFormat, real) -> string): string {
    row.siteLabel + " " + row.typeSymbol
    + " " + formatFloat(Width12Prec8, row.x) + " " + formatFloat(Width12Prec8, row.y) + " " + formatFloat(Width12Prec8, row.z)
    + " " + formatFloat(Width8Prec6, row.uIso)
  }

  function RowLines(rows: seq<OptimizedRow>, formatFloat: (FloatFormat, real) -> string): (lines: seq<string>)
    ensures |lines| == |rows|
    ensures forall i :: 0 <= i < |rows| ==> lines[i] == RowText(rows[i], formatFloat)
  {
    if rows == [] then [] else RowLines(rows[..|rows| - 1], formatFloat) + [RowText(rows[|rows| - 1], formatFloat)]
  }

  /** The `key value` line of one map entry. */
  function CellLine(key: string, value: real, formatFloat: (FloatFormat, real) -> string): string {
    key + " " + formatFloat(Width8Prec6, value)
  }

  /** A `key value` line per key of `order` that the map holds, in that
      order (Go prints the map in its own iteration order; the caller
      supplies it). */
  function CellLines(order: seq<string>, m: map<string, real>, formatFloat: (FloatFormat, real) -> string): seq<string> {
    if order == [] then []
    else
      var rest := CellLines(order[1..], m, formatFloat);
      if order[0] in m then [CellLine(order[0], m[order[0]], formatFloat)] + rest else rest
  }

  /** Every entry of the map has its line among `lines`. */
  predicate HasEveryEntry(lines: seq<string>, m: map<string, real>, formatFloat: (FloatFormat, real) -> string) {
    forall k :: k in m ==> CellLine(k, m[k], formatFloat) in lines
  }

  /** A key order that lists every key of the map exactly once, as Go's
      `range` over a map does. */
  predicate Enumerates(order: seq<string>, m: map<string, real>) {
    NoDuplicates(order) && (forall k :: k in order ==> k in m) && (forall k :: k in m ==> k in order)
  }

  /** Listing the map's keys, each once, gives one line per entry. */
  lemma {:induction false} CellLinesCount(order: seq<string>, m: map<string, real>, formatFloat: (FloatFormat, real) -> string)
    requires NoDuplicates(order)
    ensures |CellLines(order, m, formatFloat)| == |set k | k in order && k in m|
  {
    if order != [] {
      var tail := order[1..];
      assert NoDuplicates(tail) by {
        forall i, j | 0 <= i < j < |tail| ensures tail[i] != tail[j] {
          assert tail[i] == order[i + 1] && tail[j] == order[j + 1];
        }
      }
      CellLinesCount(tail, m, formatFloat);
      var s := set k | k in tail && k in m;
      assert order[0] !in tail by {
        forall j | 0 <= j < |tail| ensures tail[j] != order[0] {
          assert tail[j] == order[j + 1];
        }
      }
      if order[0] in m {
        assert (set k | k in order && k in m) == {order[0]} + s;
      } else {
        assert (set k | k in order && k in m) == s;
      }
    }
  }

  /** When every listed key is in the map, line `i` is the entry of key `i`. */
  lemma {:induction false} CellLinesOfKeys(order: seq<string>, m: map<string, real>, formatFloat: (FloatFormat, real) -> string)
    requires forall i :: 0 <= i < |order| ==> order[i] in m
    ensures var lines := CellLines(order, m, formatFloat);
      |lines| == |order|
      && forall i :: 0 <= i < |order| ==> lines[i] == CellLine(order[i], m[order[i]], formatFloat)
  {
    if order != [] {
      CellLinesOfKeys(order[1..], m, formatFloat);
    }
  }

  /** Go's `range` over a map writes every entry exactly once: with an
      order that enumerates the map, there is one line per entry, line `i`
      belongs to key `i`, and every entry's line is present. */
  lemma CellLinesEnumerate(order: seq<string>, m: map<string, real>, formatFloat: (FloatFormat, real) -> string)
    requires Enumerates(order, m)
    ensures var lines := CellLines(order, m, formatFloat);
      |lines| == |order| == |m|
      && (forall i :: 0 <= i < |order| ==> order[i] in m && lines[i] == CellLine(order[i], m[order[i]], formatFloat))
      && HasEveryEntry(lines, m, formatFloat)
  {
    var lines := CellLines(order, m, formatFloat);
    assert forall i :: 0 <= i < |order| ==> order[i] in order;
    CellLinesOfKeys(order, m, formatFloat);
    CellLinesCount(order, m, formatFloat);
    assert (set k | k in order && k in m) == m.Keys;
    forall k | k in m ensures CellLine(k, m[k], formatFloat) in lines {
      var i :| 0 <= i < |order| && order[i] == k;
      assert lines[i] == CellLine(k, m[k], formatFloat);
    }
  }

  const AuditMethodLine := "_audit_creation_method            'DFTB+ geometry optimization'"
  const AuditDatePrefix := "_audit_creation_date               '"

  const AtomLoopHead: seq<string> := [
    "", "loop_",
    "_atom_site_label", "_atom_site_type_symbol",
    "_atom_site_fract_x", "_atom_site_fract_y", "_atom_site_fract_z",
    "_atom_site_U_iso_or_equiv"]

  /** The lines of `optimized.cif`: the renamed block, the comment and the
      audit lines with the given date, the cell lines in the given key
      orders, the atom-site loop head and one row per atom. */
  function OptimizedCifLines(block: DataBlock, date: string, lengthOrder: seq<string>, angleOrder: seq<string>,
                             formatFloat: (FloatFormat, real) -> string): seq<string> {
    ["data_" + block.name + "_optimized",
     "# Optimized structure from DFTB+",
     AuditMethodLine,
     AuditDatePrefix + date + "'",
     ""]
    + CellLines(lengthOrder, block.cellLength, formatFloat)
    + CellLines(angleOrder, block.cellAngle, formatFloat)
    + AtomLoopHead
    + RowLines(OptimizedRows(block.atomSites), formatFloat)
  }

  /** `optimized.cif` opens with `data_<name>_optimized` and carries, after
      its five header lines, the cell-length lines, then the cell-angle lines,
      then the atom-site loop head and the shifted row of each atom, in order; with key orders that enumerate the maps, the cell lines
      are those of `CellLinesEnumerate`. */
  lemma OptimizedCifLayout(block: DataBlock, date: string, lengthOrder: seq<string>, angleOrder: seq<string>,
                           formatFloat: (FloatFormat, real) -> string)
    ensures var lines := OptimizedCifLines(block, date, lengthOrder, angleOrder, formatFloat);
      var lengths := CellLines(lengthOrder, block.cellLength, formatFloat);
      var angles := CellLines(angleOrder, block.cellAngle, formatFloat);
      var nl, na := |lengths|, |angles|;
      |lines| == 5 + nl + na + |AtomLoopHead| + |block.atomSites|
      && lines[5..5 + nl] == lengths
      && lines[5 + nl..5 + nl + na] == angles
      && lines[5 + nl + na..5 + nl + na + |AtomLoopHead|] == AtomLoopHead
      && lines[0] == "data_" + block.name + "_optimized"
      && lines[5 + nl + na + |AtomLoopHead|..] == RowLines(OptimizedRows(block.atomSites), formatFloat)
  {
    var head := ["data_" + block.name + "_optimized", "# Optimized structure from DFTB+", AuditMethodLine, AuditDatePrefix + date + "'", ""];
    var lengths := CellLines(lengthOrder, block.cellLength, formatFloat);
    var angles := CellLines(angleOrder, block.cellAngle, formatFloat);
    var rows := RowLines(OptimizedRows(block.atomSites), formatFloat);
    assert OptimizedCifLines(block, date, lengthOrder, angleOrder, formatFloat) == head + lengths + angles + AtomLoopHead + rows;
    CellSections(head, lengths, angles, AtomLoopHead, rows);
  }

  /** The sections of `optimized.cif` sit at their offsets. */
  lemma CellSections(head: seq<string>, lengths: seq<string>, angles: seq<string>, loopHead: seq<string>, rows: seq<string>)
    requires |head| == 5
    ensures var s := head + lengths + angles + loopHead + rows;
      var nl, na := |lengths|, |angles|;
      |s| == 5 + nl + na + |loopHead| + |rows|
      && s[5..5 + nl] == lengths
      && s[5 + nl..5 + nl + na] == angles
      && s[5 + nl + na..5 + nl + na + |loopHead|] == loopHead
      && s[0] == head[0]
      && s[5 + nl + na + |loopHead|..] == rows
  {
    var s := head + lengths + angles + loopHead + rows;
    assert s == head + (lengths + (angles + (loopHead + rows)));
    assert s[5..] == lengths + (angles + (loopHead + rows));
    assert s[5 + |lengths|..] == angles + (loopHead + rows);
    assert s[5 + |lengths| + |angles|..] == loopHead + rows;
  }

  /** The atom rows of `generateOptimizedCIF`: one formatted row per atom. */
  method OptimizedAtomRows(sites: seq<AtomSite>, formatFloat: (FloatFormat, real) -> string) returns (lines: seq<string>)
    ensures lines == RowLines(OptimizedRows(sites), formatFloat)
  {
    lines := [];
    var i := 0;
    while i < |sites|
      invariant 0 <= i <= |sites| && |lines| == i
      invariant forall j :: 0 <= j < i ==> lines[j] == RowText(OptimizedRowOf(j, sites[j]), formatFloat)
    {
      var atom := sites[i];
      var x := atom.fractX + Displacement * (i + 1) as real;
      var y := atom.fractY + Displacement * (i + 2) as real;
      var z := atom.fractZ + Displacement * (i + 3) as real;
      var uIso := atom.uIsoOrEquiv;
      if uIso == 0.0 {
        uIso := 0.01;
      }
      var row := OptimizedRow(atom.siteLabel, atom.typeSymbol, x, y, z, uIso);
      assert row == OptimizedRowOf(i, sites[i]);
      lines := lines + [RowText(row, formatFloat)];
      i := i + 1;
    }
  }

  /** The lines of a map in the given key order. */
  method WriteCellLines(order: seq<string>, m: map<string, real>, formatFloat: (FloatFormat, real) -> string) returns (lines: seq<string>)
    ensures lines == CellLines(order, m, formatFloat)
  {
    lines := [];
    var i := 0;
    while i < |order|
      invariant 0 <= i <= |order|
      invariant lines + CellLines(order[i..], m, formatFloat) == CellLines(order, m, formatFloat)
    {
      assert order[i..][1..] == order[i + 1..];
      if order[i] in m {
        lines := lines + [CellLine(order[i], m[order[i]], formatFloat)];
      }
      i := i + 1;
    }
  }

  /** `generateOptimizedCIF`'s text, as the builder assembles it. */
  method GenerateOptimizedCifContent(block: DataBlock, date: string, lengthOrder: seq<string>, angleOrder: seq<string>,
                                     formatFloat: (FloatFormat, real) -> string) returns (lines: seq<string>)
    ensures lines == OptimizedCifLines(block, date, lengthOrder, angleOrder, formatFloat)
  {
    lines := ["data_" + block.name + "_optimized", "# Optimized structure from DFTB+", AuditMethodLine, AuditDatePrefix + date + "'", ""];
    var cells := WriteCellLines(lengthOrder, block.cellLength, formatFloat);
    lines := lines + cells;
    var angles := WriteCellLines(angleOrder, block.cellAngle, formatFloat);
    lines := lines + angles;
    lines := lines + AtomLoopHead;
    var rows := OptimizedAtomRows(block.atomSites, formatFloat);
    lines := lines + rows;
  }
}
