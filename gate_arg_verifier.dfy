/** The gate-argument verifier handler: checks the declared gate sizes against the
    declared gate and constraint counts, builds the verifier component's input
    from the instruction's operands and binds the component's output. */
module GateArgVerifier {
  import opened Common

  /** Operand positions of the gate-argument verifier instruction. */
  const SELECTORS: nat := 0
  const GATES_SIZES: nat := 1
  const GATES_AMOUNT: nat := 2
  const CONSTRAINTS: nat := 3
  const CONSTRAINTS_AMOUNT: nat := 4
  const THETA: nat := 5
  const OPERANDS: nat := 6

  const GATES_AMOUNT_MISMATCH := "gates_sizes.size() == gates_amount"
  const SUM_MISMATCH := "constraints amount is not equal to the sum of the gates sizes"

  /** The exact sum of the gate sizes. */
  function SizesSum(s: seq<SizeT>): nat {
    if s == [] then 0 else SizesSum(s[..|s| - 1]) + s[|s| - 1]
  }

  /** The value a std::size_t accumulator of the gate sizes reaches. */
  function WrappedSum(s: seq<SizeT>): SizeT {
    SizesSum(s) % SIZE_T_MODULUS
  }

  /** What the handler accepts: one size per gate, adding up (in std::size_t) to the
      declared number of constraints. */
  predicate GatesSizesConsistent(gatesSizes: seq<SizeT>, gatesAmount: SizeT, constraintsAmount: SizeT) {
    |gatesSizes| == gatesAmount && WrappedSum(gatesSizes) == constraintsAmount
  }

  /** The summation loop: a std::size_t accumulator over the gate sizes. */
  method SumGatesSizes(gatesSizes: seq<SizeT>) returns (sum: SizeT)
    ensures sum == WrappedSum(gatesSizes)
  {
    sum := 0;
    for i := 0 to |gatesSizes|
      invariant sum == WrappedSum(gatesSizes[..i])
    {
      assert gatesSizes[..i + 1][..i] == gatesSizes[..i];
      sum := (sum + gatesSizes[i]) % SIZE_T_MODULUS;
    }
    assert gatesSizes[..|gatesSizes|] == gatesSizes;
  }

  /** The two size checks, in the order the handler makes them. */
  method ValidateGatesSizes(gatesSizes: seq<SizeT>, gatesAmount: SizeT, constraintsAmount: SizeT)
    returns (outcome: Outcome)
    ensures outcome.Ok? <==> GatesSizesConsistent(gatesSizes, gatesAmount, constraintsAmount)
    ensures |gatesSizes| != gatesAmount ==> outcome == Fatal(GATES_AMOUNT_MISMATCH)
    ensures (|gatesSizes| == gatesAmount && WrappedSum(gatesSizes) != constraintsAmount)
              ==> outcome == Fatal(SUM_MISMATCH)
  {
    if |gatesSizes| != gatesAmount {
      return Fatal(GATES_AMOUNT_MISMATCH);
    }
    var gatesSizesSum := SumGatesSizes(gatesSizes);
    if gatesSizesSum != constraintsAmount {
      return Fatal(SUM_MISMATCH);
    }
    outcome := Ok;
  }

  /** Gate sizes [2, 3, 1] for three gates are accepted exactly with 6 constraints. */
  lemma {:induction false} ExampleSizes(constraintsAmount: SizeT)
    ensures GatesSizesConsistent([2, 3, 1], 3, constraintsAmount) <==> constraintsAmount == 6
  {
    var s: seq<SizeT> := [2, 3, 1];
    assert s[..2] == [2, 3] && s[..2][..1] == [2] && s[..2][..1][..0] == [];
    assert SizesSum([2]) == 2;
    assert SizesSum([2, 3]) == 5;
    assert SizesSum(s) == 6;
  }

  /** When the exact sum fits in a std::size_t, the check is the exact one. */
  lemma ConsistentMeansExactSum(gatesSizes: seq<SizeT>, gatesAmount: SizeT, constraintsAmount: SizeT)
    requires SizesSum(gatesSizes) < SIZE_T_MODULUS
    ensures GatesSizesConsistent(gatesSizes, gatesAmount, constraintsAmount)
        <==> |gatesSizes| == gatesAmount && SizesSum(gatesSizes) == constraintsAmount
  {
  }

  /** The accumulator wraps: sizes whose exact sum is 2^64 pass against 0 constraints. */
  lemma {:induction false} WrappedSumAcceptsOverflow()
    ensures GatesSizesConsistent([SIZE_T_MODULUS - 1, 1], 2, 0)
    ensures SizesSum([SIZE_T_MODULUS - 1, 1]) == SIZE_T_MODULUS
  {
    var s: seq<SizeT> := [SIZE_T_MODULUS - 1, 1];
    assert s[..1] == [SIZE_T_MODULUS - 1] && s[..1][..0] == [];
    assert SizesSum(s[..1]) == SIZE_T_MODULUS - 1;
    assert SizesSum(s) == SIZE_T_MODULUS;
  }

  /** handle_native_gate_arg_verifier_component: reads theta, decodes the sizes,
      checks them, extracts selectors and constraints, and runs the verifier
      component's circuit and assignment generation; the component's output is the
      parameter output. */
  method HandleNative(
    selectorsValue: Id, gatesSizesValue: Id, gatesAmountValue: Id,
    constraintsValue: Id, constraintsAmountValue: Id, thetaValue: Id,
    scalars: map<Id, Var>, bp: Circuit, a: Assignment,
    dec: Decoders, layout: seq<nat>, startRow: nat, output: Var)
    returns (outcome: Outcome, result: Var)
    requires thetaValue in scalars
    modifies bp, a
    ensures outcome.Ok? <==> GatesSizesConsistent(dec.constVector(gatesSizesValue), dec.constSize(gatesAmountValue),
                                                  dec.constSize(constraintsAmountValue))
    ensures outcome.Fatal? ==>
              && outcome == (if |dec.constVector(gatesSizesValue)| != dec.constSize(gatesAmountValue)
                             then Fatal(GATES_AMOUNT_MISMATCH) else Fatal(SUM_MISMATCH))
              && bp.components == old(bp.components) && a.generated == old(a.generated) && a.cells == old(a.cells)
    ensures outcome.Ok? ==>
              var call := ComponentCall(
                BasicConstraintsVerifier(layout, dec.constVector(gatesSizesValue)),
                GateArgInput(scalars[thetaValue],
                             dec.inputVector(constraintsValue, dec.constSize(constraintsAmountValue)),
                             dec.inputVector(selectorsValue, dec.constSize(gatesAmountValue))),
                startRow);
              && bp.components == old(bp.components) + [call]
              && a.generated == old(a.generated) + [call]
              && result == output
  {
    var theta := scalars[thetaValue];
    var gatesAmount := dec.constSize(gatesAmountValue);
    var constraintsAmount := dec.constSize(constraintsAmountValue);
    var gatesSizes := dec.constVector(gatesSizesValue);

    outcome := ValidateGatesSizes(gatesSizes, gatesAmount, constraintsAmount);
    result := output;
    if outcome.Fatal? {
      return;
    }

    var selectors := dec.inputVector(selectorsValue, gatesAmount);
    var constraints := dec.inputVector(constraintsValue, constraintsAmount);

    var component := BasicConstraintsVerifier(layout, gatesSizes);
    var input := GateArgInput(theta, constraints, selectors);

    GenerateComponentCircuit(bp, a, ComponentCall(component, input, startRow));
    GenerateComponentAssignments(a, ComponentCall(component, input, startRow));
  }

  /** handle_gate_arg_verifier_component: operands 0 to 5 are the selectors, the gate
      sizes, the gate count, the constraints, the constraint count and theta; on
      success only the scalar bound to the instruction changes. */
  method Handle(inst: Instruction, frame: StackFrame, bp: Circuit, a: Assignment,
                dec: Decoders, layout: seq<nat>, startRow: nat, output: Var)
    returns (outcome: Outcome)
    requires |inst.operands| >= OPERANDS
    requires inst.operands[THETA] in frame.scalars
    modifies frame, bp, a
    ensures outcome.Ok? <==> GatesSizesConsistent(dec.constVector(inst.operands[GATES_SIZES]),
                                                  dec.constSize(inst.operands[GATES_AMOUNT]),
                                                  dec.constSize(inst.operands[CONSTRAINTS_AMOUNT]))
    ensures frame.vectors == old(frame.vectors)
    ensures outcome.Fatal? ==>
              outcome == (if |dec.constVector(inst.operands[GATES_SIZES])| != dec.constSize(inst.operands[GATES_AMOUNT])
                          then Fatal(GATES_AMOUNT_MISMATCH) else Fatal(SUM_MISMATCH))
    ensures outcome.Fatal? ==> frame.scalars == old(frame.scalars) && bp.components == old(bp.components)
                                && a.generated == old(a.generated) && a.cells == old(a.cells)
    ensures outcome.Ok? ==>
              var call := ComponentCall(
                BasicConstraintsVerifier(layout, dec.constVector(inst.operands[GATES_SIZES])),
                GateArgInput(old(frame.scalars)[inst.operands[THETA]],
                             dec.inputVector(inst.operands[CONSTRAINTS], dec.constSize(inst.operands[CONSTRAINTS_AMOUNT])),
                             dec.inputVector(inst.operands[SELECTORS], dec.constSize(inst.operands[GATES_AMOUNT]))),
                startRow);
              && bp.components == old(bp.components) + [call]
              && a.generated == old(a.generated) + [call]
              && frame.scalars == old(frame.scalars)[inst.id := output]
  {
    var selectorsValue := inst.operands[SELECTORS];
    var gatesSizesValue := inst.operands[GATES_SIZES];
    var gatesAmountValue := inst.operands[GATES_AMOUNT];
    var constraintsValue := inst.operands[CONSTRAINTS];
    var constraintsAmountValue := inst.operands[CONSTRAINTS_AMOUNT];
    var thetaValue := inst.operands[THETA];

    var result;
    outcome, result := HandleNative(selectorsValue, gatesSizesValue, gatesAmountValue,
                                    constraintsValue, constraintsAmountValue, thetaValue,
                                    frame.scalars, bp, a, dec, layout, startRow, output);
    if outcome.Ok? {
      frame.scalars := frame.scalars[inst.id := result];
    }
  }
}
