/** State shared by every handler of the translation pass: the identities of IR
    values, circuit variables and the cells they name, the stack frame, program
    memory, the circuit and the assignment table, and the interface of the external
    component library that the handlers call. */
module Common {

  /** Identity of an IR value (an instruction or one of its operands). */
  type Id = nat

  /** Values of a C++ std::size_t. */
  const SIZE_T_MODULUS: nat := 0x1_0000_0000_0000_0000
  type SizeT = n: nat | n < SIZE_T_MODULUS

  /** An address in program memory. */
  type Ptr = nat

  datatype ColumnKind = Witness | Constant | PublicInput | Selector

  /** A circuit variable: column index, row (rotation), whether the row is relative
      to the gate, and the kind of column. */
  datatype Var = Var(index: nat, rotation: int, relative: bool, kind: ColumnKind)

  /** A cell of the assignment table. */
  datatype Cell = Cell(kind: ColumnKind, column: nat, row: int)

  /** The cell a variable names when its value is read from the table. */
  function CellOf(v: Var): Cell {
    Cell(v.kind, v.index, v.rotation)
  }

  /** The value of a variable in the table (the source's var_value). */
  function VarValue(cells: map<Cell, nat>, v: Var): nat
    requires CellOf(v) in cells
  {
    cells[CellOf(v)]
  }

  /** Result of a handler: every detected inconsistency aborts the translation. */
  datatype Outcome = Ok | Fatal(message: string)

  /** An IR instruction: its own identity and the identities of its operands. */
  datatype Instruction = Instruction(id: Id, operands: seq<Id>)

  /** The marshalling helpers, which are not part of this model, as uninterpreted
      functions of the operand they decode:
      constSize    extract_constant_size_t_value
      constVector  extract_constant_vector
      inputVector  extract_intrinsic_input_vector (given the requested length)
      marshal      marshal_field_val */
  datatype Decoders = Decoders(
    constSize: Id -> SizeT,
    constVector: Id -> seq<SizeT>,
    inputVector: (Id, SizeT) -> seq<Var>,
    marshal: Id -> seq<nat>)

  /** The symbol table of the function being translated. */
  class StackFrame {
    var scalars: map<Id, Var>
    var vectors: map<Id, seq<Var>>

    constructor ()
      ensures scalars == map[] && vectors == map[]
    {
      scalars := map[];
      vectors := map[];
    }
  }

  /** A cell of program memory: its size in bytes and the variable it holds. */
  datatype MemCell = MemCell(size: nat, value: Var)

  class ProgramMemory {
    var cells: map<Ptr, MemCell>

    constructor (cells: map<Ptr, MemCell>)
      ensures this.cells == cells
    {
      this.cells := cells;
    }

    /** Replaces the variable held at p; the cell keeps its size. */
    method Store(p: Ptr, v: Var)
      requires p in cells
      modifies this
      ensures cells == old(cells)[p := MemCell(old(cells)[p].size, v)]
    {
      cells := cells[p := MemCell(cells[p].size, v)];
    }
  }

  datatype Point = Point(x: Var, y: Var)

  datatype CurveKind = Pallas | Vesta | Curve25519 | Bls12381 | OtherCurve

  /** The size parameters a lookup-argument verifier is built from. */
  datatype LookupParams = LookupParams(
    gateSize: SizeT,
    gateConstraintsSizes: seq<SizeT>,
    gateConstraintsLookupInputSizes: seq<SizeT>,
    tableSize: SizeT,
    tableLookupOptionsSizes: seq<SizeT>,
    tableColumnsNumbers: seq<SizeT>)

  /** A component of the external library, with its witness columns. */
  datatype Component =
    | UnifiedAddition(curve: CurveKind, witnesses: seq<nat>)
    | BasicConstraintsVerifier(witnesses: seq<nat>, gatesSizes: seq<SizeT>)
    | LookupVerifier(witnesses: seq<nat>, params: LookupParams)
    | FriCosets(witnesses: seq<nat>, resLength: SizeT, totalBits: SizeT, omega: nat)

  /** One member of a positional (brace-initialised) component input. */
  datatype InputItem = ScalarItem(v: Var) | VectorItem(vs: seq<Var>) | PairItem(first: Var, second: Var)

  datatype ComponentInput =
    | AdditionInput(p: Point, q: Point)
    | GateArgInput(theta: Var, constraints: seq<Var>, selectors: seq<Var>)
    | LookupInput(items: seq<InputItem>)
    | FriInput(x: Var)

  /** One call of a component's generate_circuit or generate_assignments. */
  datatype ComponentCall = ComponentCall(component: Component, input: ComponentInput, startRow: nat)

  /** The circuit description: the components whose constraints were added, in order. */
  class Circuit {
    var components: seq<ComponentCall>

    constructor ()
      ensures components == []
    {
      components := [];
    }
  }

  /** The assignment table, and the components whose witnesses were generated into it. */
  class Assignment {
    var cells: map<Cell, nat>
    var generated: seq<ComponentCall>

    constructor (cells: map<Cell, nat>)
      ensures this.cells == cells && generated == []
    {
      this.cells := cells;
      generated := [];
    }
  }

  /** generate_circuit of an external component: adds its constraints to the circuit.
      It is also handed the table and may write cells of it, whose values the caller
      cannot know; it is assumed never to remove a cell from the table. */
  method GenerateComponentCircuit(bp: Circuit, a: Assignment, call: ComponentCall)
    modifies bp, a`cells
    ensures bp.components == old(bp.components) + [call]
    ensures old(a.cells).Keys <= a.cells.Keys
  {
    bp.components := bp.components + [call];
  }

  /** generate_assignments of an external component: records the call and may write
      cells of the table, whose values the caller cannot know. It is assumed never to
      remove a cell from the table. */
  method GenerateComponentAssignments(a: Assignment, call: ComponentCall)
    modifies a
    ensures a.generated == old(a.generated) + [call]
    ensures old(a.cells).Keys <= a.cells.Keys
  {
    a.generated := a.generated + [call];
  }
}
