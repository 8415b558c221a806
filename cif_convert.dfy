/** The CIF reader of go-service/internal/parser/cif_parser.go, second part:
    the loop-row mapping `processLoopData` with `containsAllHeaders`, the
    conversion `ToDFTBInput` to engine input, and the pre-flight test
    `ValidateCIFContent`. */
module CifConvert {
  import opened Wrappers
  import opened GoStrings
  import opened Types
  import opened CifParser

  predicate NoDuplicates<T(==)>(s: seq<T>) {
    forall i, j :: 0 <= i < j < |s| ==> s[i] != s[j]
  }

  // ---------------------------------------------------------------------------
  // containsAllHeaders
  // ---------------------------------------------------------------------------

  /** Every required header occurs among the headers. */
  predicate ContainsAll(headers: seq<string>, required: seq<string>) {
    forall q :: q in required ==> q in headers
  }

  /** A Go `map[string]bool` read: a missing key reads as `false`. */
  function Flag(m: map<string, bool>, key: string): bool {
    key in m && m[key]
  }

  /** `containsAllHeaders`: a set of the headers is built, then each required
      header is looked up in order. */
  method ContainsAllHeaders(headers: seq<string>, required: seq<string>) returns (r: bool)
    ensures r <==> ContainsAll(headers, required)
  {
    var headerMap: map<string, bool> := map[];
    for i := 0 to |headers|
      invariant forall h :: Flag(headerMap, h) <==> h in headers[..i]
    {
      assert headers[..i + 1] == headers[..i] + [headers[i]];
      headerMap := headerMap[headers[i] := true];
    }
    assert headers[..|headers|] == headers;
    for j := 0 to |required|
      invariant forall k :: 0 <= k < j ==> required[k] in headers
    {
      if !Flag(headerMap, required[j]) {
        return false;
      }
    }
    return true;
  }

  // ---------------------------------------------------------------------------
  // processLoopData
  // ---------------------------------------------------------------------------

  /** The headers a loop must carry to be read as atom sites. */
  const AtomSiteHeaders: seq<string> :=
    ["_atom_site_label", "_atom_site_type_symbol", "_atom_site_fract_x", "_atom_site_fract_y", "_atom_site_fract_z"]

  /** The headers a loop must carry to be read as symmetry operators. */
  const SymmetryHeaders: seq<string> :=
    ["_symmetry_equiv_pos_as_xyz_x", "_symmetry_equiv_pos_as_xyz_y", "_symmetry_equiv_pos_as_xyz_z"]

  /** The atom-site fields the row mapping fills. */
  datatype AtomField = Label | TypeSymbol | FractX | FractY | FractZ | UIso | AdpType

  /** The header naming each atom-site field; any other header is ignored. */
  function AtomFieldOf(header: string): Option<AtomField> {
    if header == "_atom_site_label" then Some(Label)
    else if header == "_atom_site_type_symbol" then Some(TypeSymbol)
    else if header == "_atom_site_fract_x" then Some(FractX)
    else if header == "_atom_site_fract_y" then Some(FractY)
    else if header == "_atom_site_fract_z" then Some(FractZ)
    else if header == "_atom_site_u_iso_or_equiv" then Some(UIso)
    else if header == "_atom_site_adp_type" then Some(AdpType)
    else None
  }

  /** The header switch once the header is recognised: the trimmed cell
      `value` goes to the field `kind` names, a number only when it parses. */
  function SetAtomField(site: AtomSite, kind: Option<AtomField>, value: string, parseFloat: string -> Option<real>): AtomSite {
    match kind
    case None => site
    case Some(Label) => site.(siteLabel := value)
    case Some(TypeSymbol) => site.(typeSymbol := value)
    case Some(AdpType) => site.(adpType := value)
    case Some(FractX) => if parseFloat(value).Some? then site.(fractX := parseFloat(value).value) else site
    case Some(FractY) => if parseFloat(value).Some? then site.(fractY := parseFloat(value).value) else site
    case Some(FractZ) => if parseFloat(value).Some? then site.(fractZ := parseFloat(value).value) else site
    case Some(UIso) => if parseFloat(value).Some? then site.(uIsoOrEquiv := parseFloat(value).value) else site
  }

  /** The field each header names, column by column. */
  function FieldsOf(headers: seq<string>): (kinds: seq<Option<AtomField>>)
    ensures |kinds| == |headers|
    ensures forall i :: 0 <= i < |headers| ==> kinds[i] == AtomFieldOf(headers[i])
  {
    seq(|headers|, i requires 0 <= i < |headers| => AtomFieldOf(headers[i]))
  }

  /** The site read from the first `n` columns of a row, in column order;
      columns past the end of the row are skipped. */
  function FillAtom(kinds: seq<Option<AtomField>>, row: seq<string>, n: nat, parseFloat: string -> Option<real>): AtomSite
    requires n <= |kinds|
  {
    if n == 0 then EmptyAtomSite
    else
      var site := FillAtom(kinds, row, n - 1, parseFloat);
      if n - 1 < |row| then SetAtomField(site, kinds[n - 1], TrimSpace(row[n - 1]), parseFloat) else site
  }

  /** The site a whole row gives. */
  function AtomOfRow(headers: seq<string>, row: seq<string>, parseFloat: string -> Option<real>): AtomSite {
    FillAtom(FieldsOf(headers), row, |headers|, parseFloat)
  }

  /** The trimmed cell of the last of the first `n` columns that names `f`
      and that the row reaches. */
  function Column(kinds: seq<Option<AtomField>>, row: seq<string>, f: AtomField, n: nat): Option<string>
    requires n <= |kinds|
  {
    if n == 0 then None
    else if kinds[n - 1] == Some(f) && n - 1 < |row| then Some(TrimSpace(row[n - 1]))
    else Column(kinds, row, f, n - 1)
  }

  /** Like `Column`, for a number: the last such cell whose text parses. */
  function NumColumn(kinds: seq<Option<AtomField>>, row: seq<string>, f: AtomField, n: nat, parseFloat: string -> Option<real>): Option<real>
    requires n <= |kinds|
  {
    if n == 0 then None
    else if kinds[n - 1] == Some(f) && n - 1 < |row| && parseFloat(TrimSpace(row[n - 1])).Some? then
      parseFloat(TrimSpace(row[n - 1]))
    else NumColumn(kinds, row, f, n - 1, parseFloat)
  }

  function TextOr(o: Option<string>): string {
    if o.Some? then o.value else ""
  }

  function NumberOr(o: Option<real>): real {
    if o.Some? then o.value else 0.0
  }

  /** The site read from a row, field by field: each text field is the cell of
      the last column carrying its header, each number the last such cell that
      parses; a field with no such column keeps its zero value. */
  function SiteFromColumns(kinds: seq<Option<AtomField>>, row: seq<string>, n: nat, parseFloat: string -> Option<real>): AtomSite
    requires n <= |kinds|
  {
    AtomSite(
      TextOr(Column(kinds, row, Label, n)),
      TextOr(Column(kinds, row, TypeSymbol, n)),
      NumberOr(NumColumn(kinds, row, FractX, n, parseFloat)),
      NumberOr(NumColumn(kinds, row, FractY, n, parseFloat)),
      NumberOr(NumColumn(kinds, row, FractZ, n, parseFloat)),
      NumberOr(NumColumn(kinds, row, UIso, n, parseFloat)),
      TextOr(Column(kinds, row, AdpType, n)))
  }

  /** The header switch applied column by column fills each field from the
      columns named after it. */
  lemma {:induction false} FillAtomByColumns(kinds: seq<Option<AtomField>>, row: seq<string>, n: nat, parseFloat: string -> Option<real>)
    requires n <= |kinds|
    ensures FillAtom(kinds, row, n, parseFloat) == SiteFromColumns(kinds, row, n, parseFloat)
  {
    if n > 0 {
      FillAtomByColumns(kinds, row, n - 1, parseFloat);
      if n - 1 < |row| {
        SetAtomFieldByColumns(kinds, row, n, parseFloat);
      } else {
        ColumnsBeyondRow(kinds, row, n, parseFloat);
      }
    }
  }

  /** A column the row reaches sets exactly the field it names. */
  lemma SetAtomFieldByColumns(kinds: seq<Option<AtomField>>, row: seq<string>, n: nat, parseFloat: string -> Option<real>)
    requires 0 < n <= |kinds| && n - 1 < |row|
    ensures SetAtomField(SiteFromColumns(kinds, row, n - 1, parseFloat), kinds[n - 1], TrimSpace(row[n - 1]), parseFloat)
         == SiteFromColumns(kinds, row, n, parseFloat)
  {
    ColumnStep(kinds, row, n, parseFloat);
    match kinds[n - 1]
    case None =>
    case Some(f) =>
  }

  /** How one more column reached by the row moves `Column` and `NumColumn`. */
  lemma ColumnStep(kinds: seq<Option<AtomField>>, row: seq<string>, n: nat, parseFloat: string -> Option<real>)
    requires 0 < n <= |kinds| && n - 1 < |row|
    ensures forall f :: kinds[n - 1] != Some(f) ==>
      Column(kinds, row, f, n) == Column(kinds, row, f, n - 1)
      && NumColumn(kinds, row, f, n, parseFloat) == NumColumn(kinds, row, f, n - 1, parseFloat)
    ensures forall f :: kinds[n - 1] == Some(f) ==>
      var v := TrimSpace(row[n - 1]);
      Column(kinds, row, f, n) == Some(v)
      && NumColumn(kinds, row, f, n, parseFloat)
         == if parseFloat(v).Some? then parseFloat(v) else NumColumn(kinds, row, f, n - 1, parseFloat)
  {
  }

  /** A column beyond the end of the row changes no field. */
  lemma ColumnsBeyondRow(kinds: seq<Option<AtomField>>, row: seq<string>, n: nat, parseFloat: string -> Option<real>)
    requires 0 < n <= |kinds| && n - 1 >= |row|
    ensures SiteFromColumns(kinds, row, n - 1, parseFloat) == SiteFromColumns(kinds, row, n, parseFloat)
  {
  }

  /** Two headers naming the same field are the same header. */
  lemma AtomFieldOfInjective(a: string, b: string)
    requires AtomFieldOf(a).Some? && AtomFieldOf(a) == AtomFieldOf(b)
    ensures a == b
  {
  }

  /** Distinct headers name distinct fields. */
  predicate DistinctFields(kinds: seq<Option<AtomField>>) {
    forall i, j :: 0 <= i < j < |kinds| && kinds[i].Some? ==> kinds[i] != kinds[j]
  }

  lemma DistinctHeadersDistinctFields(headers: seq<string>)
    requires NoDuplicates(headers)
    ensures DistinctFields(FieldsOf(headers))
  {
    var kinds := FieldsOf(headers);
    forall i, j | 0 <= i < j < |kinds| && kinds[i].Some?
      ensures kinds[i] != kinds[j]
    {
      if kinds[i] == kinds[j] {
        AtomFieldOfInjective(headers[i], headers[j]);
      }
    }
  }

  /** With distinct fields, the column naming `f` at position `k` within the
      row supplies the text of `f`. */
  lemma {:induction false} ColumnAt(kinds: seq<Option<AtomField>>, row: seq<string>, f: AtomField, k: nat, n: nat)
    requires DistinctFields(kinds) && k < n <= |kinds| && k < |row| && kinds[k] == Some(f)
    ensures Column(kinds, row, f, n) == Some(TrimSpace(row[k]))
  {
    if n - 1 != k {
      assert kinds[k] != kinds[n - 1];
      ColumnAt(kinds, row, f, k, n - 1);
    }
  }

  /** With no column naming `f` within the row, `f` keeps its zero value. */
  lemma {:induction false} ColumnAbsent(kinds: seq<Option<AtomField>>, row: seq<string>, f: AtomField, n: nat, parseFloat: string -> Option<real>)
    requires n <= |kinds|
    requires forall k :: 0 <= k < n && k < |row| ==> kinds[k] != Some(f)
    ensures Column(kinds, row, f, n) == None
    ensures NumColumn(kinds, row, f, n, parseFloat) == None
  {
    if n > 0 {
      ColumnAbsent(kinds, row, f, n - 1, parseFloat);
    }
  }

  /** With distinct fields, the column naming `f` at position `k` supplies the
      number of `f` when its text parses, and nothing when it does not. */
  lemma {:induction false} NumColumnAt(kinds: seq<Option<AtomField>>, row: seq<string>, f: AtomField, k: nat, n: nat, parseFloat: string -> Option<real>)
    requires DistinctFields(kinds) && k < n <= |kinds| && k < |row| && kinds[k] == Some(f)
    ensures NumColumn(kinds, row, f, n, parseFloat) == parseFloat(TrimSpace(row[k]))
  {
    if n - 1 != k {
      assert kinds[k] != kinds[n - 1];
      NumColumnAt(kinds, row, f, k, n - 1, parseFloat);
    } else if parseFloat(TrimSpace(row[k])).None? {
      assert forall j :: 0 <= j < k ==> kinds[j] != kinds[k];
      ColumnAbsent(kinds, row, f, k, parseFloat);
    }
  }

  /** For distinct headers, each field is taken from its header's position:
      a text field is the trimmed cell, a number field the parsed cell or 0
      when the cell does not parse. */
  lemma AtomFieldByPosition(headers: seq<string>, row: seq<string>, k: nat, parseFloat: string -> Option<real>)
    requires NoDuplicates(headers) && k < |headers| && k < |row| && AtomFieldOf(headers[k]).Some?
    ensures var site := AtomOfRow(headers, row, parseFloat);
      var cell := TrimSpace(row[k]);
      var num := if parseFloat(cell).Some? then parseFloat(cell).value else 0.0;
      match AtomFieldOf(headers[k]).value
      case Label => site.siteLabel == cell
      case TypeSymbol => site.typeSymbol == cell
      case AdpType => site.adpType == cell
      case FractX => site.fractX == num
      case FractY => site.fractY == num
      case FractZ => site.fractZ == num
      case UIso => site.uIsoOrEquiv == num
  {
    var kinds := FieldsOf(headers);
    var f := kinds[k].value;
    DistinctHeadersDistinctFields(headers);
    FillAtomByColumns(kinds, row, |headers|, parseFloat);
    ColumnAt(kinds, row, f, k, |headers|);
    NumColumnAt(kinds, row, f, k, |headers|, parseFloat);
  }

  /** The symmetry-operator axes the row mapping fills. */
  datatype Axis = AxisX | AxisY | AxisZ

  function AxisOf(header: string): Option<Axis> {
    if header == "_symmetry_equiv_pos_as_xyz_x" then Some(AxisX)
    else if header == "_symmetry_equiv_pos_as_xyz_y" then Some(AxisY)
    else if header == "_symmetry_equiv_pos_as_xyz_z" then Some(AxisZ)
    else None
  }

  function SetAxis(op: SymmetryOperation, axis: Option<Axis>, value: string): SymmetryOperation {
    match axis
    case None => op
    case Some(AxisX) => op.(x := value)
    case Some(AxisY) => op.(y := value)
    case Some(AxisZ) => op.(z := value)
  }

  function AxesOf(headers: seq<string>): (axes: seq<Option<Axis>>)
    ensures |axes| == |headers|
    ensures forall i :: 0 <= i < |headers| ==> axes[i] == AxisOf(headers[i])
  {
    seq(|headers|, i requires 0 <= i < |headers| => AxisOf(headers[i]))
  }

  function FillSymmetry(axes: seq<Option<Axis>>, row: seq<string>, n: nat): SymmetryOperation
    requires n <= |axes|
  {
    if n == 0 then EmptySymmetryOperation
    else
      var op := FillSymmetry(axes, row, n - 1);
      if n - 1 < |row| then SetAxis(op, axes[n - 1], TrimSpace(row[n - 1])) else op
  }

  function SymmetryOfRow(headers: seq<string>, row: seq<string>): SymmetryOperation {
    FillSymmetry(AxesOf(headers), row, |headers|)
  }

  /** The trimmed cell of the last of the first `n` columns naming `axis`. */
  function AxisColumn(axes: seq<Option<Axis>>, row: seq<string>, axis: Axis, n: nat): Option<string>
    requires n <= |axes|
  {
    if n == 0 then None
    else if axes[n - 1] == Some(axis) && n - 1 < |row| then Some(TrimSpace(row[n - 1]))
    else AxisColumn(axes, row, axis, n - 1)
  }

  /** Each axis of an operator is the cell of the last column naming it, or
      empty when there is none. */
  lemma {:induction false} FillSymmetryByColumns(axes: seq<Option<Axis>>, row: seq<string>, n: nat)
    requires n <= |axes|
    ensures FillSymmetry(axes, row, n)
         == SymmetryOperation(TextOr(AxisColumn(axes, row, AxisX, n)),
                              TextOr(AxisColumn(axes, row, AxisY, n)),
                              TextOr(AxisColumn(axes, row, AxisZ, n)))
  {
    if n > 0 {
      FillSymmetryByColumns(axes, row, n - 1);
    }
  }

  /** The atom sites `processLoopData` reads from a loop: one per row, in row
      order, when every atom-site header is present; none otherwise. */
  function AtomRows(headers: seq<string>, data: seq<seq<string>>, parseFloat: string -> Option<real>): seq<AtomSite> {
    if ContainsAll(headers, AtomSiteHeaders) then AtomSitesOf(headers, data, parseFloat) else []
  }

  /** The site of each row, in row order. */
  function AtomSitesOf(headers: seq<string>, data: seq<seq<string>>, parseFloat: string -> Option<real>): (sites: seq<AtomSite>)
    ensures |sites| == |data|
    ensures forall i :: 0 <= i < |data| ==> sites[i] == AtomOfRow(headers, data[i], parseFloat)
  {
    if data == [] then [] else AtomSitesOf(headers, data[..|data| - 1], parseFloat) + [AtomOfRow(headers, data[|data| - 1], parseFloat)]
  }

  /** Likewise for the symmetry operators. */
  function SymmetryRows(headers: seq<string>, data: seq<seq<string>>): seq<SymmetryOperation> {
    if ContainsAll(headers, SymmetryHeaders) then SymmetryOf(headers, data) else []
  }

  /** The operator of each row, in row order. */
  function SymmetryOf(headers: seq<string>, data: seq<seq<string>>): (ops: seq<SymmetryOperation>)
    ensures |ops| == |data|
    ensures forall i :: 0 <= i < |data| ==> ops[i] == SymmetryOfRow(headers, data[i])
  {
    if data == [] then [] else SymmetryOf(headers, data[..|data| - 1]) + [SymmetryOfRow(headers, data[|data| - 1])]
  }

  /** `processLoopData`: the block with the loop's records appended. */
  function LoopRecords(block: DataBlock, headers: seq<string>, data: seq<seq<string>>, parseFloat: string -> Option<real>): DataBlock {
    block.(atomSites := block.atomSites + AtomRows(headers, data, parseFloat),
           symmetry := block.symmetry + SymmetryRows(headers, data))
  }

  /** One loop feeds both lists when it carries both sets of headers, and
      nothing else of the block changes. */
  lemma LoopRecordsShape(block: DataBlock, headers: seq<string>, data: seq<seq<string>>, parseFloat: string -> Option<real>)
    ensures var r := LoopRecords(block, headers, data, parseFloat);
      && r.name == block.name && r.cellLength == block.cellLength
      && r.cellAngle == block.cellAngle && r.metadata == block.metadata
      && |r.atomSites| == |block.atomSites| + (if ContainsAll(headers, AtomSiteHeaders) then |data| else 0)
      && |r.symmetry| == |block.symmetry| + (if ContainsAll(headers, SymmetryHeaders) then |data| else 0)
      && r.atomSites[..|block.atomSites|] == block.atomSites
      && r.symmetry[..|block.symmetry|] == block.symmetry
  {
    var r := LoopRecords(block, headers, data, parseFloat);
    assert r.atomSites[..|block.atomSites|] == block.atomSites;
    assert r.symmetry[..|block.symmetry|] == block.symmetry;
  }

  /** `processLoopData` (cif_parser.go:160-242): the atom-site pass, then the
      symmetry pass, each appending one record per row. */
  method ProcessLoopData(block: DataBlock, headers: seq<string>, data: seq<seq<string>>, parseFloat: string -> Option<real>)
    returns (r: DataBlock)
    ensures r == LoopRecords(block, headers, data, parseFloat)
  {
    var sites := block.atomSites;
    var isAtomLoop := ContainsAllHeaders(headers, AtomSiteHeaders);
    if isAtomLoop {
      sites := AppendAtomRows(sites, headers, data, parseFloat);
    } else {
      assert sites + [] == sites;
    }
    var ops := block.symmetry;
    var isSymmetryLoop := ContainsAllHeaders(headers, SymmetryHeaders);
    if isSymmetryLoop {
      ops := AppendSymmetryRows(ops, headers, data);
    } else {
      assert ops + [] == ops;
    }
    r := block.(atomSites := sites, symmetry := ops);
  }

  /** The atom-site pass: one site per row, in row order. */
  method AppendAtomRows(sites0: seq<AtomSite>, headers: seq<string>, data: seq<seq<string>>, parseFloat: string -> Option<real>)
    returns (sites: seq<AtomSite>)
    ensures sites == sites0 + AtomSitesOf(headers, data, parseFloat)
  {
    sites := sites0;
    for k := 0 to |data|
      invariant sites == sites0 + AtomSitesOf(headers, data[..k], parseFloat)
    {
      var site := ReadAtomSite(headers, data[k], parseFloat);
      assert data[..k + 1][..k] == data[..k];
      sites := sites + [site];
    }
    assert data[..|data|] == data;
  }

  /** The symmetry pass: one operator per row, in row order. */
  method AppendSymmetryRows(ops0: seq<SymmetryOperation>, headers: seq<string>, data: seq<seq<string>>)
    returns (ops: seq<SymmetryOperation>)
    ensures ops == ops0 + SymmetryOf(headers, data)
  {
    ops := ops0;
    for k := 0 to |data|
      invariant ops == ops0 + SymmetryOf(headers, data[..k])
    {
      var op := ReadSymmetry(headers, data[k]);
      assert data[..k + 1][..k] == data[..k];
      ops := ops + [op];
    }
    assert data[..|data|] == data;
  }

  /** The inner loop of the atom-site pass: the header switch over one row. */
  method ReadAtomSite(headers: seq<string>, row: seq<string>, parseFloat: string -> Option<real>) returns (site: AtomSite)
    ensures site == AtomOfRow(headers, row, parseFloat)
  {
    site := EmptyAtomSite;
    for i := 0 to |headers|
      invariant site == FillAtom(FieldsOf(headers), row, i, parseFloat)
    {
      if i >= |row| {
        continue;
      }
      var value := TrimSpace(row[i]);
      site := SetAtomField(site, AtomFieldOf(headers[i]), value, parseFloat);
    }
  }

  /** The inner loop of the symmetry pass. */
  method ReadSymmetry(headers: seq<string>, row: seq<string>) returns (op: SymmetryOperation)
    ensures op == SymmetryOfRow(headers, row)
  {
    op := EmptySymmetryOperation;
    for i := 0 to |headers|
      invariant op == FillSymmetry(AxesOf(headers), row, i)
    {
      if i >= |row| {
        continue;
      }
      op := SetAxis(op, AxisOf(headers[i]), TrimSpace(row[i]));
    }
  }

  // ---------------------------------------------------------------------------
  // ToDFTBInput
  // ---------------------------------------------------------------------------

  /** A Go `map[string]float64` read: a missing key reads as 0. */
  function CellValue(m: map<string, real>, key: string): real {
    if key in m then m[key] else 0.0
  }

  /** The type symbol of each site, in order. */
  function TypeSymbols(sites: seq<AtomSite>): (symbols: seq<string>)
    ensures |symbols| == |sites|
    ensures forall i :: 0 <= i < |sites| ==> symbols[i] == sites[i].typeSymbol
  {
    if sites == [] then [] else TypeSymbols(sites[..|sites| - 1]) + [sites[|sites| - 1].typeSymbol]
  }

  /** The strings of `s` with every repetition dropped. */
  function Distinct(s: seq<string>): seq<string> {
    if s == [] then []
    else
      var d := Distinct(s[..|s| - 1]);
      if s[|s| - 1] in d then d else d + [s[|s| - 1]]
  }

  /** The position of the first occurrence of `x` in `s`. */
  function FirstIndex(s: seq<string>, x: string): (i: nat)
    requires x in s
    ensures i < |s| && s[i] == x && x !in s[..i]
  {
    if s[0] == x then 0 else 1 + FirstIndex(s[1..], x)
  }

  lemma {:induction false} FirstIndexInPrefix(p: seq<string>, y: string, x: string)
    requires x in p
    ensures FirstIndex(p + [y], x) == FirstIndex(p, x)
  {
    if p[0] != x {
      assert (p + [y])[1..] == p[1..] + [y];
      FirstIndexInPrefix(p[1..], y, x);
    }
  }

  lemma FirstIndexOfNew(p: seq<string>, y: string)
    requires y !in p
    ensures FirstIndex(p + [y], y) == |p|
  {
  }

  /** `Distinct` keeps each string of `s` exactly once and orders the strings
      by their first occurrence in `s`. */
  lemma {:induction false} DistinctFirstOccurrences(s: seq<string>)
    ensures NoDuplicates(Distinct(s))
    ensures forall x :: x in Distinct(s) <==> x in s
    ensures forall i, j :: 0 <= i < j < |Distinct(s)| ==> FirstIndex(s, Distinct(s)[i]) < FirstIndex(s, Distinct(s)[j])
  {
    if s != [] {
      var p, y := s[..|s| - 1], s[|s| - 1];
      assert s == p + [y];
      DistinctFirstOccurrences(p);
      var d := Distinct(p);
      forall x | x in d
        ensures FirstIndex(s, x) == FirstIndex(p, x)
      {
        FirstIndexInPrefix(p, y, x);
      }
      if y !in d {
        FirstIndexOfNew(p, y);
        var e := d + [y];
        assert Distinct(s) == e;
        forall i, j | 0 <= i < j < |e|
          ensures FirstIndex(s, e[i]) < FirstIndex(s, e[j])
        {
          if j < |d| {
            assert e[i] == d[i] && e[j] == d[j];
          } else {
            assert e[i] == d[i] && e[j] == y;
          }
        }
      }
    }
  }

  /** A site's fractional coordinates scaled by the cell lengths, axis by axis. */
  function Cartesian(site: AtomSite, a: real, b: real, c: real): Vec3 {
    Vec3(site.fractX * a, site.fractY * b, site.fractZ * c)
  }

  function CoordinatesOf(sites: seq<AtomSite>, a: real, b: real, c: real): (coords: seq<Vec3>)
    ensures |coords| == |sites|
    ensures forall i :: 0 <= i < |sites| ==> coords[i] == Cartesian(sites[i], a, b, c)
  {
    if sites == [] then [] else CoordinatesOf(sites[..|sites| - 1], a, b, c) + [Cartesian(sites[|sites| - 1], a, b, c)]
  }

  /** The diagonal lattice built from the three cell lengths. */
  function DiagonalLattice(a: real, b: real, c: real): Mat3 {
    Mat3(Vec3(a, 0.0, 0.0), Vec3(0.0, b, 0.0), Vec3(0.0, 0.0, c))
  }

  /** `ToDFTBInput`: a nil CIF or a nameless block is rejected; otherwise the
      engine input for the structure, the method and the force threshold. */
  function Convert(cif: Option<CifFile>, methodName: string, fmax: real): (r: Result<DftbInput>)
    ensures r.Err? <==> cif.None? || cif.value.dataBlock.name == ""
  {
    if cif.None? || cif.value.dataBlock.name == "" then Err("invalid CIF file")
    else
      var block := cif.value.dataBlock;
      var a := CellValue(block.cellLength, "_cell_length_a");
      var b := CellValue(block.cellLength, "_cell_length_b");
      var c := CellValue(block.cellLength, "_cell_length_c");
      Ok(DftbInput(
        Geometry(true, DiagonalLattice(a, b, c), Distinct(TypeSymbols(block.atomSites)), CoordinatesOf(block.atomSites, a, b, c)),
        Hamiltonian(methodName),
        Analysis(true),
        Options(fmax)))
  }

  /** The engine input of an accepted CIF. */
  function InputOf(cif: CifFile, methodName: string, fmax: real): DftbInput
    requires cif.dataBlock.name != ""
  {
    Convert(Some(cif), methodName, fmax).value
  }

  /** What the engine input of an accepted CIF holds: each type symbol once,
      in order of first appearance; one coordinate per site, its fractional
      coordinates scaled per axis; a diagonal lattice whatever the angles,
      with 0 for a missing length; periodic, forces on, method and threshold
      copied. */
  lemma ConvertedInput(cif: CifFile, methodName: string, fmax: real)
    requires cif.dataBlock.name != ""
    ensures NoDuplicates(InputOf(cif, methodName, fmax).geometry.elements)
    ensures forall t :: t in InputOf(cif, methodName, fmax).geometry.elements <==> t in TypeSymbols(cif.dataBlock.atomSites)
    ensures var elements := InputOf(cif, methodName, fmax).geometry.elements;
      forall i, j :: 0 <= i < j < |elements| ==>
        FirstIndex(TypeSymbols(cif.dataBlock.atomSites), elements[i]) < FirstIndex(TypeSymbols(cif.dataBlock.atomSites), elements[j])
    ensures var sites := cif.dataBlock.atomSites;
      var coordinates := InputOf(cif, methodName, fmax).geometry.coordinates;
      var a := CellValue(cif.dataBlock.cellLength, "_cell_length_a");
      var b := CellValue(cif.dataBlock.cellLength, "_cell_length_b");
      var c := CellValue(cif.dataBlock.cellLength, "_cell_length_c");
      && |coordinates| == |sites|
      && (forall i :: 0 <= i < |sites| ==> coordinates[i] == Vec3(sites[i].fractX * a, sites[i].fractY * b, sites[i].fractZ * c))
      && InputOf(cif, methodName, fmax).geometry.latticeVectors == Mat3(Vec3(a, 0.0, 0.0), Vec3(0.0, b, 0.0), Vec3(0.0, 0.0, c))
    ensures var r := InputOf(cif, methodName, fmax);
      r.geometry.periodic && r.analysis.forces && r.hamiltonian.methodName == methodName && r.options.fmax == fmax
  {
    DistinctFirstOccurrences(TypeSymbols(cif.dataBlock.atomSites));
  }

  /** A cubic cell of side 10 holding two sites of one element, at (0, 0, 0)
      and at (0.5, 0.5, 0) (two carbons, say), gives that element once and
      the coordinates (0, 0, 0) and (5, 5, 0). */
  lemma ConvertExample(cif: CifFile, methodName: string, fmax: real)
    requires cif.dataBlock.name != ""
    requires CellValue(cif.dataBlock.cellLength, "_cell_length_a") == 10.0
    requires CellValue(cif.dataBlock.cellLength, "_cell_length_b") == 10.0
    requires CellValue(cif.dataBlock.cellLength, "_cell_length_c") == 10.0
    requires var sites := cif.dataBlock.atomSites;
      |sites| == 2 && sites[0].typeSymbol == sites[1].typeSymbol
      && sites[0].fractX == 0.0 && sites[0].fractY == 0.0 && sites[0].fractZ == 0.0
      && sites[1].fractX == 0.5 && sites[1].fractY == 0.5 && sites[1].fractZ == 0.0
    ensures InputOf(cif, methodName, fmax).geometry.elements == [cif.dataBlock.atomSites[0].typeSymbol]
    ensures InputOf(cif, methodName, fmax).geometry.coordinates == [Vec3(0.0, 0.0, 0.0), Vec3(5.0, 5.0, 0.0)]
  {
    var sites := cif.dataBlock.atomSites;
    var t := sites[0].typeSymbol;
    var symbols := TypeSymbols(sites);
    assert symbols == [t, t];
    assert symbols[..1] == [t];
    assert Distinct(symbols[..1]) == [t];
    assert Distinct(symbols) == [t];
    var coords := CoordinatesOf(sites, 10.0, 10.0, 10.0);
    assert coords[0] == Vec3(0.0, 0.0, 0.0);
    assert coords[1] == Vec3(5.0, 5.0, 0.0);
  }

  /** `ToDFTBInput` (cif_parser.go:261-314): one pass over the sites collects
      new type symbols through a seen-map and appends scaled coordinates. */
  method ToDftbInput(cif: Option<CifFile>, methodName: string, fmax: real) returns (r: Result<DftbInput>)
    ensures r == Convert(cif, methodName, fmax)
  {
    if cif.None? || cif.value.dataBlock.name == "" {
      return Err("invalid CIF file");
    }
    var block := cif.value.dataBlock;
    var a := CellValue(block.cellLength, "_cell_length_a");
    var b := CellValue(block.cellLength, "_cell_length_b");
    var c := CellValue(block.cellLength, "_cell_length_c");
    var sites := block.atomSites;
    var elements: seq<string> := [];
    var coordinates: seq<Vec3> := [];
    var elementMap: map<string, bool> := map[];
    for i := 0 to |sites|
      invariant elements == Distinct(TypeSymbols(sites[..i]))
      invariant forall t :: Flag(elementMap, t) <==> t in elements
      invariant coordinates == CoordinatesOf(sites[..i], a, b, c)
    {
      var atom := sites[i];
      assert sites[..i + 1][..i] == sites[..i];
      if !Flag(elementMap, atom.typeSymbol) {
        elements := elements + [atom.typeSymbol];
        elementMap := elementMap[atom.typeSymbol := true];
      }
      coordinates := coordinates + [Cartesian(atom, a, b, c)];
    }
    assert sites[..|sites|] == sites;
    r := Ok(DftbInput(Geometry(true, DiagonalLattice(a, b, c), elements, coordinates),
                      Hamiltonian(methodName), Analysis(true), Options(fmax)));
  }
}
