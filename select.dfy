/** The select mockup component: a one-row witness assignment that copies a
    condition and two values into the table and picks one of the values by whether
    the condition is nonzero. */
module Select {
  import opened Common

  /** A select component; W(i) is its i-th witness column. */
  datatype SelectComponent = SelectComponent(witnesses: seq<nat>) {
    function W(i: nat): nat
      requires i < |witnesses|
    {
      witnesses[i]
    }
  }

  datatype SelectInput = SelectInput(condition: Var, trueVal: Var, falseVal: Var)

  datatype SelectResult = SelectResult(res: Var)

  /** generate_assignments writes columns W(0) to W(3). */
  const COLUMNS_WRITTEN: nat := 4

  /** Rows the component occupies, whatever its width: a single row. */
  function RowsAmount(witnessAmount: nat, lookupColumnAmount: nat): (r: nat)
    ensures r == 1
  {
    1
  }

  /** Gates the component declares: one. */
  function GatesAmount(): (r: nat)
    ensures r == 1
  {
    1
  }

  /** Rows an empty assignment occupies: one. */
  function EmptyRowsAmount(): (r: nat)
    ensures r == 1
  {
    1
  }

  /** An inclusive range of witness-column counts a manifest admits. */
  datatype WitnessRange = WitnessRange(min: nat, max: nat)

  predicate Admits(r: WitnessRange, n: nat) {
    r.min <= n <= r.max
  }

  /** The manifest as the component declares it: from 3 columns up to one column per
      28 bits of the field modulus, rounded up. */
  function ManifestAsWritten(modulusBits: nat): (r: WitnessRange)
    ensures r.min == 3
    ensures modulusBits <= r.max * 28 < modulusBits + 28
  {
    WitnessRange(3, (modulusBits + 28 - 1) / 28)
  }

  /** With a 255-bit modulus the declared manifest admits a 3-column layout, which
      has no column W(3) for generate_assignments to write. */
  lemma ManifestAsWrittenAdmitsThreeColumns()
    ensures Admits(ManifestAsWritten(255), 3)
    ensures 3 < COLUMNS_WRITTEN
  {
  }

  /** The manifest with the lower bound generate_assignments needs. */
  function Manifest(modulusBits: nat): (r: WitnessRange)
    ensures r.min == COLUMNS_WRITTEN
    ensures r.max == ManifestAsWritten(modulusBits).max
  {
    WitnessRange(COLUMNS_WRITTEN, (modulusBits + 28 - 1) / 28)
  }

  /** Every layout the corrected manifest admits has the columns the component writes. */
  lemma ManifestAdmitsOnlyWritableLayouts(modulusBits: nat, c: SelectComponent)
    requires Admits(Manifest(modulusBits), |c.witnesses|)
    ensures |c.witnesses| >= COLUMNS_WRITTEN
  {
  }

  /** The four cells of the start row that generate_assignments writes. */
  function WrittenCells(c: SelectComponent, row: nat): (cs: set<Cell>)
    requires |c.witnesses| >= COLUMNS_WRITTEN
    ensures forall cell | cell in cs :: cell.kind == Witness && row <= cell.row < row + RowsAmount(|c.witnesses|, 0)
    ensures forall i | 0 <= i < COLUMNS_WRITTEN :: Cell(Witness, c.W(i), row) in cs
  {
    {Cell(Witness, c.W(0), row), Cell(Witness, c.W(1), row), Cell(Witness, c.W(2), row), Cell(Witness, c.W(3), row)}
  }

  predicate InputsAssigned(cells: map<Cell, nat>, input: SelectInput) {
    CellOf(input.condition) in cells && CellOf(input.trueVal) in cells && CellOf(input.falseVal) in cells
  }

  /** Columns W(0) to W(3) are four different columns. */
  predicate DistinctColumns(c: SelectComponent)
    requires |c.witnesses| >= COLUMNS_WRITTEN
  {
    forall i, j | 0 <= i < j < COLUMNS_WRITTEN :: c.W(i) != c.W(j)
  }

  /** The table after the select assignment, all three inputs being read from the
      table before any cell is written. */
  function Assigned(cells: map<Cell, nat>, c: SelectComponent, input: SelectInput, row: nat): (cells': map<Cell, nat>)
    requires |c.witnesses| >= COLUMNS_WRITTEN
    requires InputsAssigned(cells, input)
    ensures cells'.Keys == cells.Keys + WrittenCells(c, row)
    ensures cells'[Cell(Witness, c.W(0), row)]
         == if VarValue(cells, input.condition) != 0 then VarValue(cells, input.trueVal) else VarValue(cells, input.falseVal)
    ensures DistinctColumns(c) ==>
              && cells'[Cell(Witness, c.W(1), row)] == VarValue(cells, input.condition)
              && cells'[Cell(Witness, c.W(2), row)] == VarValue(cells, input.trueVal)
              && cells'[Cell(Witness, c.W(3), row)] == VarValue(cells, input.falseVal)
    ensures forall cell | cell in cells && cell !in WrittenCells(c, row) :: cells'[cell] == cells[cell]
  {
    var condition := VarValue(cells, input.condition);
    var trueVal := VarValue(cells, input.trueVal);
    var falseVal := VarValue(cells, input.falseVal);
    cells[Cell(Witness, c.W(1), row) := condition]
         [Cell(Witness, c.W(2), row) := trueVal]
         [Cell(Witness, c.W(3), row) := falseVal]
         [Cell(Witness, c.W(0), row) := if condition != 0 then trueVal else falseVal]
  }

  /** The descriptor of the component's output: column W(0) at the start row, absolute. */
  function ResultOf(c: SelectComponent, row: nat): (r: SelectResult)
    requires |c.witnesses| >= 1
    ensures !r.res.relative && r.res.kind == Witness && r.res.rotation == row
    ensures |c.witnesses| >= COLUMNS_WRITTEN ==> CellOf(r.res) in WrittenCells(c, row)
  {
    SelectResult(Var(c.W(0), row, false, Witness))
  }

  /** The output, read back from the table after the assignment, is the value chosen
      by the condition, even when an input names one of the cells written. */
  lemma ResultHoldsSelectedValue(cells: map<Cell, nat>, c: SelectComponent, input: SelectInput, row: nat)
    requires |c.witnesses| >= COLUMNS_WRITTEN
    requires InputsAssigned(cells, input)
    ensures CellOf(ResultOf(c, row).res) in Assigned(cells, c, input, row)
    ensures VarValue(Assigned(cells, c, input, row), ResultOf(c, row).res)
         == if VarValue(cells, input.condition) != 0 then VarValue(cells, input.trueVal) else VarValue(cells, input.falseVal)
  {
  }

  /** generate_circuit adds nothing to the circuit and writes nothing to the table;
      it returns the same descriptor as generate_assignments. */
  method GenerateCircuit(c: SelectComponent, bp: Circuit, a: Assignment, input: SelectInput, row: nat)
    returns (r: SelectResult)
    requires |c.witnesses| >= 1
    ensures r.res == Var(c.W(0), row, false, Witness)
  {
    r := ResultOf(c, row);
  }

  method GenerateAssignments(c: SelectComponent, a: Assignment, input: SelectInput, row: nat)
    returns (r: SelectResult)
    requires |c.witnesses| >= COLUMNS_WRITTEN
    requires InputsAssigned(a.cells, input)
    modifies a`cells
    ensures a.cells == Assigned(old(a.cells), c, input, row)
    ensures r.res == Var(c.W(0), row, false, Witness)
  {
    var condition := VarValue(a.cells, input.condition);
    var trueVal := VarValue(a.cells, input.trueVal);
    var falseVal := VarValue(a.cells, input.falseVal);

    a.cells := a.cells[Cell(Witness, c.W(1), row) := condition];
    a.cells := a.cells[Cell(Witness, c.W(2), row) := trueVal];
    a.cells := a.cells[Cell(Witness, c.W(3), row) := falseVal];

    var output := if condition != 0 then trueVal else falseVal;

    a.cells := a.cells[Cell(Witness, c.W(0), row) := output];

    r := ResultOf(c, row);
  }

  /** Identical in effect and result to GenerateAssignments. */
  method GenerateEmptyAssignments(c: SelectComponent, a: Assignment, input: SelectInput, row: nat)
    returns (r: SelectResult)
    requires |c.witnesses| >= COLUMNS_WRITTEN
    requires InputsAssigned(a.cells, input)
    modifies a`cells
    ensures a.cells == Assigned(old(a.cells), c, input, row)
    ensures r.res == Var(c.W(0), row, false, Witness)
  {
    r := GenerateAssignments(c, a, input, row);
  }
}
