/** The curve addition handler: checks that both operands are points of the same
    elliptic curve, and for Pallas points over the Pallas base field runs the
    unified addition component and binds the sum's coordinates to the instruction;
    every other curve and field combination aborts. */
module CurveAddition {
  import opened Common

  /** The field the circuit is built over (the handler's BlueprintFieldType). */
  datatype FieldKind = PallasBase | VestaBase | Ed25519Base | Bls12381Base | OtherField

  /** The IR type of an operand, as far as the handler inspects it. */
  datatype IrType = EllipticCurveType(kind: CurveKind) | OtherType

  /** Number of witness columns of the unified addition component. */
  const ADDITION_WITNESSES: nat := 11

  const NOT_A_CURVE := "operand type is not an elliptic curve type"
  const KIND_MISMATCH := "operands are points of different curves"
  const NON_NATIVE_PALLAS := "non-native pallas is undefined"
  const NATIVE_VESTA := "native vesta is not implemented"
  const NON_NATIVE_VESTA := "non-native vesta is undefined"
  const NATIVE_CURVE25519 := "native curve25519 addition is not implemented"
  const NON_NATIVE_CURVE25519 := "non-native curve25519 addition is not implemented"
  const NATIVE_BLS12381 := "native bls12381 addition is not implemented"
  const NON_NATIVE_BLS12381 := "non-native bls12381 addition is not implemented"
  const UNSUPPORTED := "unsupported field operand type"

  /** The base field of each curve the handler knows. */
  function BaseField(k: CurveKind): FieldKind
    requires k != OtherCurve
  {
    match k
    case Pallas => PallasBase
    case Vesta => VestaBase
    case Curve25519 => Ed25519Base
    case Bls12381 => Bls12381Base
  }

  /** What the handler does for two operand types and the circuit's field. */
  datatype AdditionPlan = NativePallas | Reject(message: string)

  /** The abort message of each unsupported case of the curve switch; native means
      the circuit's field is the curve's base field. */
  function RejectionMessage(k: CurveKind, native: bool): (r: string)
    ensures r != NOT_A_CURVE && r != KIND_MISMATCH
    ensures r == UNSUPPORTED <==> k == OtherCurve
    ensures k == Pallas ==> r == NON_NATIVE_PALLAS
  {
    match k
    case Pallas => NON_NATIVE_PALLAS
    case Vesta => if native then NATIVE_VESTA else NON_NATIVE_VESTA
    case Curve25519 => if native then NATIVE_CURVE25519 else NON_NATIVE_CURVE25519
    case Bls12381 => if native then NATIVE_BLS12381 else NON_NATIVE_BLS12381
    case OtherCurve => UNSUPPORTED
  }

  /** The two casts, the curve-kind assertion and the switch on the curve kind. */
  function Plan(t0: IrType, t1: IrType, field: FieldKind): (d: AdditionPlan)
    ensures d == NativePallas <==> t0 == EllipticCurveType(Pallas) && t1 == EllipticCurveType(Pallas) && field == PallasBase
    ensures !t0.EllipticCurveType? || !t1.EllipticCurveType? ==> d == Reject(NOT_A_CURVE)
    ensures (t0.EllipticCurveType? && t1.EllipticCurveType? && t0.kind != t1.kind) ==> d == Reject(KIND_MISMATCH)
    ensures (t0.EllipticCurveType? && t0 == t1 && t0.kind != OtherCurve && d.Reject?)
              ==> d.message == RejectionMessage(t0.kind, field == BaseField(t0.kind))
    ensures (t0 == t1 == EllipticCurveType(OtherCurve)) ==> d == Reject(UNSUPPORTED)
  {
    if !t0.EllipticCurveType? || !t1.EllipticCurveType? then Reject(NOT_A_CURVE)
    else if t0.kind != t1.kind then Reject(KIND_MISMATCH)
    else if t0.kind == Pallas && field == PallasBase then NativePallas
    else if t0.kind == OtherCurve then Reject(UNSUPPORTED)
    else Reject(RejectionMessage(t0.kind, field == BaseField(t0.kind)))
  }

  /** The unified addition component with witness columns 0 to 10. */
  function AdditionComponent(): (c: Component)
    ensures c.UnifiedAddition? && c.curve == Pallas
    ensures |c.witnesses| == ADDITION_WITNESSES && forall i | 0 <= i < ADDITION_WITNESSES :: c.witnesses[i] == i
  {
    UnifiedAddition(Pallas, seq(ADDITION_WITNESSES, i => i))
  }

  /** The points P and Q: the first two variables of each operand's vector. */
  function AdditionInputOf(p: seq<Var>, q: seq<Var>): (input: ComponentInput)
    requires |p| >= 2 && |q| >= 2
    ensures input.AdditionInput?
    ensures input.p.x == p[0] && input.p.y == p[1] && input.q.x == q[0] && input.q.y == q[1]
  {
    AdditionInput(Point(p[0], p[1]), Point(q[0], q[1]))
  }

  /** handle_native_curve_unified_addition_component: runs circuit generation and then
      assignment generation of the component on the two points; the component's
      result, computed by the external library, is the parameter res. */
  method HandleNativeUnifiedAddition(
    operand0: Id, operand1: Id, vectors: map<Id, seq<Var>>,
    bp: Circuit, a: Assignment, startRow: nat, res: Point)
    returns (r: Point)
    requires operand0 in vectors && |vectors[operand0]| >= 2
    requires operand1 in vectors && |vectors[operand1]| >= 2
    modifies bp, a
    ensures var call := ComponentCall(AdditionComponent(), AdditionInputOf(vectors[operand0], vectors[operand1]), startRow);
            && bp.components == old(bp.components) + [call]
            && a.generated == old(a.generated) + [call]
    ensures r == res
  {
    var component := AdditionComponent();
    var p := Point(vectors[operand0][0], vectors[operand0][1]);
    var q := Point(vectors[operand1][0], vectors[operand1][1]);
    var input := AdditionInput(p, q);

    GenerateComponentCircuit(bp, a, ComponentCall(component, input, startRow));
    GenerateComponentAssignments(a, ComponentCall(component, input, startRow));
    r := res;
  }

  /** handle_curve_addition_component: typeOf gives each operand's IR type and field
      the circuit's field; only two Pallas points over the Pallas base field are
      added, and the instruction's vector becomes the sum's two coordinates. */
  method HandleCurveAddition(
    inst: Instruction, typeOf: Id -> IrType, field: FieldKind,
    frame: StackFrame, bp: Circuit, a: Assignment, startRow: nat, res: Point)
    returns (outcome: Outcome)
    requires |inst.operands| >= 2
    requires Plan(typeOf(inst.operands[0]), typeOf(inst.operands[1]), field) == NativePallas ==>
               && inst.operands[0] in frame.vectors && |frame.vectors[inst.operands[0]]| >= 2
               && inst.operands[1] in frame.vectors && |frame.vectors[inst.operands[1]]| >= 2
    modifies frame, bp, a
    ensures var plan := Plan(typeOf(inst.operands[0]), typeOf(inst.operands[1]), field);
            && (outcome.Ok? <==> plan == NativePallas)
            && (outcome.Fatal? ==> plan == Reject(outcome.message))
    ensures frame.scalars == old(frame.scalars)
    ensures outcome.Fatal? ==> frame.vectors == old(frame.vectors) && bp.components == old(bp.components)
                                && a.generated == old(a.generated) && a.cells == old(a.cells)
    ensures outcome.Ok? ==>
              var call := ComponentCall(AdditionComponent(),
                                        AdditionInputOf(old(frame.vectors)[inst.operands[0]],
                                                        old(frame.vectors)[inst.operands[1]]),
                                        startRow);
              && bp.components == old(bp.components) + [call]
              && a.generated == old(a.generated) + [call]
              && frame.vectors == old(frame.vectors)[inst.id := [res.x, res.y]]
  {
    var operand0 := inst.operands[0];
    var operand1 := inst.operands[1];
    var plan := Plan(typeOf(operand0), typeOf(operand1), field);
    match plan
    case Reject(message) =>
      outcome := Fatal(message);
    case NativePallas =>
      var sum := HandleNativeUnifiedAddition(operand0, operand1, frame.vectors, bp, a, startRow, res);
      frame.vectors := frame.vectors[inst.id := [sum.x, sum.y]];
      outcome := Ok;
  }
}
