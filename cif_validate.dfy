/** `CIFParser.ValidateCIFContent`: the substring screen the service applies
    to uploaded text, and how it relates to what the parser and the converter
    make of the same text. */
module CifValidate {
  import opened Wrappers
  import opened GoStrings
  import opened Types
  import opened CifParser
  import opened CifConvert

  const MissingDataBlock := "missing data block declaration"
  const MissingCell := "missing cell parameters"
  const MissingAtomSites := "missing atom site information"

  /** The three markers the screen looks for, in its order: a data block, a
      cell parameter (`_cell_length_a`, or the dotted `_cell.angle_alpha`) and
      atom sites (`_atom_site` or `loop_`). `None` is Go's nil error. */
  function ValidateCifContent(content: string): (r: Option<string>)
    ensures r.None? <==>
      Contains(content, "data_")
      && (Contains(content, "_cell_length_a") || Contains(content, "_cell.angle_alpha"))
      && (Contains(content, "_atom_site") || Contains(content, "loop_"))
    ensures r.Some? ==> r.value in {MissingDataBlock, MissingCell, MissingAtomSites}
  {
    if !Contains(content, "data_") then Some(MissingDataBlock)
    else if !Contains(content, "_cell_length_a") && !Contains(content, "_cell.angle_alpha") then Some(MissingCell)
    else if !Contains(content, "_atom_site") && !Contains(content, "loop_") then Some(MissingAtomSites)
    else None
  }

  /** Each message is reported exactly when its own marker is missing and
      every earlier one is present: the data block first, then the cell,
      then the atom sites. */
  lemma ValidateCifContentOrder(content: string)
    ensures var r := ValidateCifContent(content);
      var hasData := Contains(content, "data_");
      var hasCell := Contains(content, "_cell_length_a") || Contains(content, "_cell.angle_alpha");
      var hasAtoms := Contains(content, "_atom_site") || Contains(content, "loop_");
      (r == Some(MissingDataBlock) <==> !hasData)
      && (r == Some(MissingCell) <==> hasData && !hasCell)
      && (r == Some(MissingAtomSites) <==> hasData && hasCell && !hasAtoms)
  {
    assert MissingDataBlock[8] != MissingCell[8];
    assert MissingDataBlock[8] != MissingAtomSites[8];
    assert MissingCell[8] != MissingAtomSites[8];
  }

  /** Text in which `data_` never occurs has no line the parser reads as a
      block declaration. */
  lemma NoMarkerNoDataLines(content: string)
    requires !Contains(content, "data_")
    ensures NoDataLines(ScanLines(content))
  {
    var lines := ScanLines(content);
    forall k | 0 <= k < |lines| ensures !IsDataLine(TrimSpace(lines[k])) {
      var line := TrimSpace(lines[k]);
      if IsDataLine(line) {
        var i := TrimSpaceTrims(lines[k]);
        assert Contains(line, "data_");
        ContainsInSlice(lines[k], i, i + |line|, "data_");
        ScanLinesContains(content, k, "data_");
      }
    }
  }

  /** Text the screen turns away for want of a data block never converts:
      the parser either dereferences its nil block or yields the nameless
      empty CIF, which the converter rejects. */
  lemma RejectedForDataBlockNeverConverts(content: string, parseFloat: string -> Option<real>, methodName: string, fmax: real)
    requires ValidateCifContent(content) == Some(MissingDataBlock)
    ensures var p := Parse(ScanLines(content), parseFloat);
      p == NilBlockPanic || (p == Parsed(EmptyCifFile) && Convert(Some(p.cif), methodName, fmax).Err?)
  {
    NoMarkerNoDataLines(content);
    WithoutDataLineNameIsEmpty(ScanLines(content), parseFloat);
  }

  /** Any text with the three markers in this order passes the screen. */
  lemma ScreenPasses(a: string, b: string, c: string, d: string)
    ensures ValidateCifContent(a + "data_" + b + "_cell_length_a" + c + "loop_" + d).None?
  {
    var s := a + "data_" + b + "_cell_length_a" + c + "loop_" + d;
    ContainsBetween(a, "data_", b + "_cell_length_a" + c + "loop_" + d);
    assert s == a + "data_" + (b + "_cell_length_a" + c + "loop_" + d);
    ContainsBetween(a + "data_" + b, "_cell_length_a", c + "loop_" + d);
    assert s == a + "data_" + b + "_cell_length_a" + (c + "loop_" + d);
    ContainsBetween(a + "data_" + b + "_cell_length_a" + c, "loop_", d);
  }

  const CommentLine := "# " + "data_" + " " + "_cell_length_a" + " " + "loop_" + ""
  const PlainLine := "cell " + "data_" + " " + "_cell_length_a" + " " + "loop_" + ""

  /** A text that is one comment line parses to the nameless empty CIF. */
  lemma CommentLineParsesEmpty(line: string, parseFloat: string -> Option<real>)
    requires line != [] && line[0] == '#' && '\n' !in line && !IsSpace(line[|line| - 1])
    ensures Parse(ScanLines(line), parseFloat) == Parsed(EmptyCifFile)
  {
    SingleLine(line);
    TrimSpaceNoOuterSpace(line);
    assert Step(InitialState, line, parseFloat) == Some(InitialState);
    assert Run(InitialState, [line], parseFloat) == Run(InitialState, [], parseFloat);
  }

  /** A text that is one plain `key value` line dereferences the nil block. */
  lemma PlainLinePanics(line: string, parseFloat: string -> Option<real>)
    requires line != [] && line[0] !in "#_dl" && !IsSpace(line[0])
    requires '\n' !in line && !IsSpace(line[|line| - 1]) && ' ' in line
    ensures Parse(ScanLines(line), parseFloat) == NilBlockPanic
  {
    SingleLine(line);
    PlainStepPanics(line, parseFloat);
    assert Run(InitialState, [line], parseFloat) == None;
  }

  /** Before any `data_` line there is no block, so a `key value` line
      dereferences nil. */
  lemma PlainStepPanics(line: string, parseFloat: string -> Option<real>)
    requires line != [] && line[0] !in "#_dl" && !IsSpace(line[0])
    requires !IsSpace(line[|line| - 1]) && ' ' in line
    ensures Step(InitialState, line, parseFloat) == None
  {
    TrimSpaceNoOuterSpace(line);
    PlainKind(line);
    assert KeyValue(line).Some?;
    assert StepLine(InitialState, line, parseFloat) == PairStep(InitialState, line);
  }

  /** A line starting with none of `#`, `_`, `d` and `l` is a plain line. */
  lemma PlainKind(line: string)
    requires line != [] && line[0] !in "#_dl"
    ensures Classify(line) == Plain
  {
    FirstCharRulesOutDecl(line);
  }

  /** The screen is weaker than the parser: a comment line carrying all three
      markers passes it, yet parses to the nameless empty CIF, which the
      converter rejects. */
  lemma CommentPassesScreen(parseFloat: string -> Option<real>, methodName: string, fmax: real)
    ensures ValidateCifContent(CommentLine).None?
    ensures Parse(ScanLines(CommentLine), parseFloat) == Parsed(EmptyCifFile)
    ensures Convert(Some(EmptyCifFile), methodName, fmax).Err?
  {
    ScreenPasses("# ", " ", " ", "");
    CommentLineParsesEmpty(CommentLine, parseFloat);
  }

  /** Worse, text that passes the screen can crash the parser: a plain
      `key value` line before any `data_` line is written into the nil
      block. */
  lemma ScreenedTextMayPanic(parseFloat: string -> Option<real>)
    ensures ValidateCifContent(PlainLine).None?
    ensures Parse(ScanLines(PlainLine), parseFloat) == NilBlockPanic
  {
    ScreenPasses("cell ", " ", " ", "");
    PlainLinePanics(PlainLine, parseFloat);
  }
}
