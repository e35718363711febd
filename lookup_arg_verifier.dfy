/** The lookup-argument verifier handler: a fixed positional decoding of 33
    operands, a cross-check of the duplicated table size, assembly of the
    verifier's 16-member input and binding of its four outputs. */
module LookupArgVerifier {
  import opened Common

  const OPERANDS: nat := 33
  /** Number of (vector, length) operand pairs. */
  const INPUT_VECTORS: nat := 9

  const TABLE_SIZE_MISMATCH := "lookup_table_size == extract_constant_size_t_value(operand 3)"

  /** What each operand of the instruction stands for. */
  datatype Role =
    | TableLookupOptionsSizes
    | TableSize
    | TableColumnsNumbers
    | TableSizeCheck
    | GateConstraintsSizes
    | GateSize
    | GateConstraintsLookupInputSizes
    | ConstraintsSize
    | InputVector(i: nat)
    | InputLength(i: nat)
    | Theta
    | Beta
    | Gamma
    | L0
    | VL
    | QLast
    | QBlind

  predicate ValidRole(r: Role) {
    (r.InputVector? || r.InputLength?) ==> r.i < INPUT_VECTORS
  }

  /** The operand position of each role. */
  function OperandOf(r: Role): nat
    requires ValidRole(r)
  {
    match r
    case TableLookupOptionsSizes => 0
    case TableSize => 1
    case TableColumnsNumbers => 2
    case TableSizeCheck => 3
    case GateConstraintsSizes => 4
    case GateSize => 5
    case GateConstraintsLookupInputSizes => 6
    case ConstraintsSize => 7
    case InputVector(i) => 8 + i * 2
    case InputLength(i) => 8 + i * 2 + 1
    case Theta => 26
    case Beta => 27
    case Gamma => 28
    case L0 => 29
    case VL => 30
    case QLast => 31
    case QBlind => 32
  }

  /** The role of each operand position. */
  function RoleOf(k: nat): Role
    requires k < OPERANDS
  {
    if k < 8 then [TableLookupOptionsSizes, TableSize, TableColumnsNumbers, TableSizeCheck,
                   GateConstraintsSizes, GateSize, GateConstraintsLookupInputSizes, ConstraintsSize][k]
    else if k < 26 then (if k % 2 == 0 then InputVector((k - 8) / 2) else InputLength((k - 8) / 2))
    else [Theta, Beta, Gamma, L0, VL, QLast, QBlind][k - 26]
  }

  /** Every role has its own operand among the 33, and every operand has a role:
      the layout is a bijection between roles and positions 0 to 32. */
  lemma LayoutIsBijection(r: Role, k: nat)
    requires ValidRole(r) && k < OPERANDS
    ensures OperandOf(r) < OPERANDS
    ensures ValidRole(RoleOf(k))
    ensures RoleOf(OperandOf(r)) == r
    ensures OperandOf(RoleOf(k)) == k
  {
  }

  /** The nine input vectors and their lengths occupy exactly operands 8 to 25, each
      position once. */
  lemma InputOperandsCover()
    ensures forall i, j | 0 <= i < INPUT_VECTORS && 0 <= j < INPUT_VECTORS ::
              OperandOf(InputVector(i)) != OperandOf(InputLength(j))
    ensures forall i, j | 0 <= i < j < INPUT_VECTORS ::
              OperandOf(InputVector(i)) != OperandOf(InputVector(j)) && OperandOf(InputLength(i)) != OperandOf(InputLength(j))
    ensures forall i | 0 <= i < INPUT_VECTORS ::
              8 <= OperandOf(InputVector(i)) <= 25 && 8 <= OperandOf(InputLength(i)) <= 25
    ensures forall k: nat | 8 <= k <= 25 ::
              (RoleOf(k).InputVector? || RoleOf(k).InputLength?) && RoleOf(k).i < INPUT_VECTORS && OperandOf(RoleOf(k)) == k
  {
  }

  /** The operand holding a role in a given instruction. */
  function Operand(inst: Instruction, r: Role): Id
    requires ValidRole(r) && |inst.operands| >= OPERANDS
  {
    inst.operands[OperandOf(r)]
  }

  /** The duplicated table size agrees. */
  predicate TableSizesAgree(inst: Instruction, dec: Decoders)
    requires |inst.operands| >= OPERANDS
  {
    dec.constSize(Operand(inst, TableSize)) == dec.constSize(Operand(inst, TableSizeCheck))
  }

  /** The values the handler looks up in the frame are bound, and each two-element
      operand holds at least two variables. */
  predicate FrameOperandsBound(inst: Instruction, scalars: map<Id, Var>, vectors: map<Id, seq<Var>>)
    requires |inst.operands| >= OPERANDS
  {
    && Operand(inst, Theta) in scalars && Operand(inst, Beta) in scalars
    && Operand(inst, Gamma) in scalars && Operand(inst, L0) in scalars
    && Operand(inst, VL) in vectors && |vectors[Operand(inst, VL)]| >= 2
    && Operand(inst, QLast) in vectors && |vectors[Operand(inst, QLast)]| >= 2
    && Operand(inst, QBlind) in vectors && |vectors[Operand(inst, QBlind)]| >= 2
  }

  /** Input vector i, extracted with the length its length operand declares. */
  function InputVectorAt(inst: Instruction, dec: Decoders, i: nat): seq<Var>
    requires |inst.operands| >= OPERANDS && i < INPUT_VECTORS
  {
    dec.inputVector(Operand(inst, InputVector(i)), dec.constSize(Operand(inst, InputLength(i))))
  }

  /** The decoding loop: one extracted vector per (vector, length) pair, in order. */
  method ExtractInputVectors(inst: Instruction, dec: Decoders) returns (inputVectors: seq<seq<Var>>)
    requires |inst.operands| >= OPERANDS
    ensures |inputVectors| == INPUT_VECTORS
    ensures forall i | 0 <= i < INPUT_VECTORS ::
              inputVectors[i] == dec.inputVector(inst.operands[8 + 2 * i], dec.constSize(inst.operands[9 + 2 * i]))
  {
    inputVectors := [];
    var size: SizeT := 0;
    for i := 0 to INPUT_VECTORS
      invariant |inputVectors| == i
      invariant forall k | 0 <= k < i ::
                  inputVectors[k] == dec.inputVector(inst.operands[8 + 2 * k], dec.constSize(inst.operands[9 + 2 * k]))
    {
      size := dec.constSize(inst.operands[8 + i * 2 + 1]);
      inputVectors := inputVectors + [dec.inputVector(inst.operands[8 + i * 2], size)];
    }
  }

  /** The verifier's input, member by member: theta, beta, gamma, input vector 0,
      V_L, q_last, q_blind, L0, then input vectors 1 to 8. */
  function AssembleInput(theta: Var, beta: Var, gamma: Var, l0: Var,
                         vL: seq<Var>, qLast: seq<Var>, qBlind: seq<Var>,
                         inputVectors: seq<seq<Var>>): (items: seq<InputItem>)
    requires |vL| >= 2 && |qLast| >= 2 && |qBlind| >= 2
    requires |inputVectors| == INPUT_VECTORS
    ensures |items| == 16
    ensures items[3] == VectorItem(inputVectors[0])
    ensures forall i | 1 <= i < INPUT_VECTORS :: items[7 + i] == VectorItem(inputVectors[i])
    ensures items[..3] == [ScalarItem(theta), ScalarItem(beta), ScalarItem(gamma)] && items[7] == ScalarItem(l0)
    ensures items[4..7] == [PairItem(vL[0], vL[1]), PairItem(qLast[0], qLast[1]), PairItem(qBlind[0], qBlind[1])]
  {
    [ScalarItem(theta), ScalarItem(beta), ScalarItem(gamma),
     VectorItem(inputVectors[0]),
     PairItem(vL[0], vL[1]), PairItem(qLast[0], qLast[1]), PairItem(qBlind[0], qBlind[1]),
     ScalarItem(l0),
     VectorItem(inputVectors[1]), VectorItem(inputVectors[2]), VectorItem(inputVectors[3]),
     VectorItem(inputVectors[4]), VectorItem(inputVectors[5]), VectorItem(inputVectors[6]),
     VectorItem(inputVectors[7]), VectorItem(inputVectors[8])]
  }

  /** The size parameters the component is built from. Operand 7 is not among them. */
  function ParamsOf(inst: Instruction, dec: Decoders): LookupParams
    requires |inst.operands| >= OPERANDS
  {
    LookupParams(
      dec.constSize(Operand(inst, GateSize)),
      dec.constVector(Operand(inst, GateConstraintsSizes)),
      dec.constVector(Operand(inst, GateConstraintsLookupInputSizes)),
      dec.constSize(Operand(inst, TableSize)),
      dec.constVector(Operand(inst, TableLookupOptionsSizes)),
      dec.constVector(Operand(inst, TableColumnsNumbers)))
  }

  /** The component call the handler makes for an instruction. */
  function LookupCall(inst: Instruction, scalars: map<Id, Var>, vectors: map<Id, seq<Var>>,
                      dec: Decoders, layout: seq<nat>, startRow: nat): ComponentCall
    requires |inst.operands| >= OPERANDS
    requires FrameOperandsBound(inst, scalars, vectors)
  {
    ComponentCall(
      LookupVerifier(layout, ParamsOf(inst, dec)),
      LookupInput(AssembleInput(
        scalars[Operand(inst, Theta)], scalars[Operand(inst, Beta)],
        scalars[Operand(inst, Gamma)], scalars[Operand(inst, L0)],
        vectors[Operand(inst, VL)], vectors[Operand(inst, QLast)], vectors[Operand(inst, QBlind)],
        seq(INPUT_VECTORS, i requires 0 <= i < INPUT_VECTORS => InputVectorAt(inst, dec, i)))),
      startRow)
  }

  /** Operand 7, declared as the sum of operand 4's entries, is decoded but neither
      checked nor used: changing its decoded value (when it is a value of its own)
      changes neither the size check nor the component call. */
  lemma ConstraintsSizeUnchecked(inst: Instruction, scalars: map<Id, Var>, vectors: map<Id, seq<Var>>,
                                 dec: Decoders, layout: seq<nat>, startRow: nat, n: SizeT)
    requires |inst.operands| >= OPERANDS
    requires FrameOperandsBound(inst, scalars, vectors)
    requires forall k | 0 <= k < OPERANDS && k != 7 :: inst.operands[k] != inst.operands[7]
    ensures var dec' := dec.(constSize := x => if x == inst.operands[7] then n else dec.constSize(x));
            && dec'.constSize(inst.operands[7]) == n
            && (TableSizesAgree(inst, dec') <==> TableSizesAgree(inst, dec))
            && LookupCall(inst, scalars, vectors, dec', layout, startRow)
               == LookupCall(inst, scalars, vectors, dec, layout, startRow)
  {
    var dec' := dec.(constSize := x => if x == inst.operands[7] then n else dec.constSize(x));
    forall i | 0 <= i < INPUT_VECTORS
      ensures InputVectorAt(inst, dec', i) == InputVectorAt(inst, dec, i)
    {
      assert OperandOf(InputLength(i)) != 7;
    }
    assert OperandOf(TableSize) != 7 && OperandOf(TableSizeCheck) != 7 && OperandOf(GateSize) != 7;
    assert ParamsOf(inst, dec') == ParamsOf(inst, dec);
    assert seq(INPUT_VECTORS, i requires 0 <= i < INPUT_VECTORS => InputVectorAt(inst, dec', i))
        == seq(INPUT_VECTORS, i requires 0 <= i < INPUT_VECTORS => InputVectorAt(inst, dec, i));
  }

  /** The vectors extracted at positions 8 + 2 * i are the input vectors of each role. */
  lemma InputVectorsAsSpecified(inst: Instruction, dec: Decoders, inputVectors: seq<seq<Var>>)
    requires |inst.operands| >= OPERANDS
    requires |inputVectors| == INPUT_VECTORS
    requires forall i | 0 <= i < INPUT_VECTORS ::
               inputVectors[i] == dec.inputVector(inst.operands[8 + 2 * i], dec.constSize(inst.operands[9 + 2 * i]))
    ensures inputVectors == seq(INPUT_VECTORS, i requires 0 <= i < INPUT_VECTORS => InputVectorAt(inst, dec, i))
  {
    forall i | 0 <= i < INPUT_VECTORS
      ensures inputVectors[i] == InputVectorAt(inst, dec, i)
    {
      assert OperandOf(InputVector(i)) == 8 + 2 * i && OperandOf(InputLength(i)) == 9 + 2 * i;
    }
  }

  /** The call built from the extracted vectors and the looked-up frame values is
      the specified one. */
  lemma ExtractedCallIsLookupCall(inst: Instruction, scalars: map<Id, Var>, vectors: map<Id, seq<Var>>,
                                  dec: Decoders, layout: seq<nat>, startRow: nat, inputVectors: seq<seq<Var>>)
    requires |inst.operands| >= OPERANDS
    requires FrameOperandsBound(inst, scalars, vectors)
    requires |inputVectors| == INPUT_VECTORS
    requires forall i | 0 <= i < INPUT_VECTORS ::
               inputVectors[i] == dec.inputVector(inst.operands[8 + 2 * i], dec.constSize(inst.operands[9 + 2 * i]))
    ensures ComponentCall(
              LookupVerifier(layout, LookupParams(
                dec.constSize(inst.operands[5]), dec.constVector(inst.operands[4]), dec.constVector(inst.operands[6]),
                dec.constSize(inst.operands[1]), dec.constVector(inst.operands[0]), dec.constVector(inst.operands[2]))),
              LookupInput(AssembleInput(
                scalars[inst.operands[26]], scalars[inst.operands[27]], scalars[inst.operands[28]], scalars[inst.operands[29]],
                vectors[inst.operands[30]], vectors[inst.operands[31]], vectors[inst.operands[32]],
                inputVectors)),
              startRow)
         == LookupCall(inst, scalars, vectors, dec, layout, startRow)
  {
    assert Operand(inst, Theta) == inst.operands[26] && Operand(inst, Beta) == inst.operands[27];
    assert Operand(inst, Gamma) == inst.operands[28] && Operand(inst, L0) == inst.operands[29];
    assert Operand(inst, VL) == inst.operands[30] && Operand(inst, QLast) == inst.operands[31];
    assert Operand(inst, QBlind) == inst.operands[32];
    InputVectorsAsSpecified(inst, dec, inputVectors);
    assert ParamsOf(inst, dec) == LookupParams(
      dec.constSize(inst.operands[5]), dec.constVector(inst.operands[4]), dec.constVector(inst.operands[6]),
      dec.constSize(inst.operands[1]), dec.constVector(inst.operands[0]), dec.constVector(inst.operands[2]));
  }

  /** The decoding of the operands after the size check, and the component and input
      built from them. */
  method BuildCall(inst: Instruction, scalars: map<Id, Var>, vectors: map<Id, seq<Var>>,
                   dec: Decoders, layout: seq<nat>, startRow: nat)
    returns (call: ComponentCall)
    requires |inst.operands| >= OPERANDS
    requires FrameOperandsBound(inst, scalars, vectors)
    ensures call == LookupCall(inst, scalars, vectors, dec, layout, startRow)
  {
    var lookupTableLookupOptionsSizes := dec.constVector(inst.operands[0]);
    var lookupTableSize := dec.constSize(inst.operands[1]);
    var lookupTableColumnsNumbers := dec.constVector(inst.operands[2]);
    var lookupGateConstraintsSizes := dec.constVector(inst.operands[4]);
    var lookupGateSize := dec.constSize(inst.operands[5]);
    var lookupGateConstraintsLookupInputSizes := dec.constVector(inst.operands[6]);
    var lookupConstraintsSize := dec.constSize(inst.operands[7]);

    var inputVectors := ExtractInputVectors(inst, dec);

    var theta := scalars[inst.operands[26]];
    var beta := scalars[inst.operands[27]];
    var gamma := scalars[inst.operands[28]];
    var l0 := scalars[inst.operands[29]];

    var vL := vectors[inst.operands[30]];
    var qLast := vectors[inst.operands[31]];
    var qBlind := vectors[inst.operands[32]];

    var component := LookupVerifier(layout, LookupParams(
      lookupGateSize, lookupGateConstraintsSizes, lookupGateConstraintsLookupInputSizes,
      lookupTableSize, lookupTableLookupOptionsSizes, lookupTableColumnsNumbers));

    var input := LookupInput(AssembleInput(theta, beta, gamma, l0, vL, qLast, qBlind, inputVectors));

    ExtractedCallIsLookupCall(inst, scalars, vectors, dec, layout, startRow, inputVectors);
    call := ComponentCall(component, input, startRow);
  }

  /** handle_lookup_arg_verifier_component. On success only the vector bound to the
      instruction changes, to the component's four outputs res in order. */
  method Handle(inst: Instruction, frame: StackFrame, bp: Circuit, a: Assignment,
                dec: Decoders, layout: seq<nat>, startRow: nat, res: seq<Var>)
    returns (outcome: Outcome)
    requires |inst.operands| >= OPERANDS
    requires |res| == 4
    requires TableSizesAgree(inst, dec) ==> FrameOperandsBound(inst, frame.scalars, frame.vectors)
    modifies frame, bp, a
    ensures outcome.Ok? <==> TableSizesAgree(inst, dec)
    ensures frame.scalars == old(frame.scalars)
    ensures outcome.Fatal? ==> && outcome == Fatal(TABLE_SIZE_MISMATCH)
                               && frame.vectors == old(frame.vectors) && bp.components == old(bp.components)
                               && a.generated == old(a.generated) && a.cells == old(a.cells)
    ensures outcome.Ok? ==>
              var call := LookupCall(inst, old(frame.scalars), old(frame.vectors), dec, layout, startRow);
              && bp.components == old(bp.components) + [call]
              && a.generated == old(a.generated) + [call]
              && frame.vectors == old(frame.vectors)[inst.id := [res[0], res[1], res[2], res[3]]]
  {
    if dec.constSize(inst.operands[1]) != dec.constSize(inst.operands[3]) {
      return Fatal(TABLE_SIZE_MISMATCH);
    }
    var call := BuildCall(inst, frame.scalars, frame.vectors, dec, layout, startRow);
    GenerateComponentCircuit(bp, a, call);
    GenerateComponentAssignments(a, call);
    frame.vectors := frame.vectors[inst.id := [res[0], res[1], res[2], res[3]]];
    outcome := Ok;
  }
}
