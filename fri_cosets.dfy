/** The FRI cosets handler: checks that three operands each marshal to a single
    field element, runs the external FRI cosets component, and stores the triples it
    returns into program memory at consecutive addresses from a result pointer. */
module FriCosets {
  import opened Common

  /** Operand positions of the FRI cosets instruction. */
  const RESULT: nat := 0
  const RESULT_LENGTH: nat := 1
  const OMEGA: nat := 2
  const TOTAL_BITS: nat := 3
  const INPUT: nat := 4
  const OPERANDS: nat := 5

  const OMEGA_NOT_SINGLE := "marshalling_vector_omega.size() == 1"
  const TOTAL_BITS_NOT_SINGLE := "marshalling_vector_total_bits.size() == 1"
  const RES_LENGTH_NOT_SINGLE := "marshalling_vector_res_length.size() == 1"
  const CELL_SIZE_MISMATCH := "memory[result_ptr].size == (number_bits + 7) / 8"

  /** One element of the component's output. */
  datatype Triple = Triple(v0: Var, v1: Var, v2: Var) {
    function At(j: nat): Var
      requires j < 3
    {
      if j == 0 then v0 else if j == 1 then v1 else v2
    }
  }

  /** The triples, element after element, as they are laid out in memory. */
  function Flatten(ts: seq<Triple>): (r: seq<Var>)
    ensures |r| == 3 * |ts|
  {
    if ts == [] then [] else Flatten(ts[..|ts| - 1]) + [ts[|ts| - 1].v0, ts[|ts| - 1].v1, ts[|ts| - 1].v2]
  }

  /** Element j of triple i is at offset 3 * i + j. */
  lemma {:induction false} FlattenAt(ts: seq<Triple>, i: nat, j: nat)
    requires i < |ts| && j < 3
    ensures Flatten(ts)[3 * i + j] == ts[i].At(j)
  {
    var n := |ts| - 1;
    if i < n {
      assert ts[..n][i] == ts[i];
      FlattenAt(ts[..n], i, j);
    }
  }

  /** Bytes in a memory cell that holds one field element. */
  function CellBytes(numberBits: nat): (r: nat)
    ensures numberBits <= 8 * r < numberBits + 8
  {
    (numberBits + 7) / 8
  }

  /** The address holds a cell of the expected size. */
  predicate Storable(cells: map<Ptr, MemCell>, p: Ptr, cellSize: nat) {
    p in cells && cells[p].size == cellSize
  }

  /** Memory after the first n values have been stored from address base on (a
      store replaces the variable of an allocated cell and keeps its size). */
  function StoredPrefix(cells: map<Ptr, MemCell>, base: Ptr, vals: seq<Var>, n: nat): (m: map<Ptr, MemCell>)
    requires n <= |vals|
    ensures m.Keys == cells.Keys
    ensures forall p | p in cells :: m[p].size == cells[p].size
    ensures forall p | p in cells && base <= p < base + n :: m[p].value == vals[p - base]
    ensures forall p | p in cells && !(base <= p < base + n) :: m[p] == cells[p]
  {
    if n == 0 then cells
    else
      var m' := StoredPrefix(cells, base, vals, n - 1);
      if base + n - 1 in m' then m'[base + n - 1 := MemCell(m'[base + n - 1].size, vals[n - 1])] else m'
  }

  /** Every address of [base, base + n) holds a cell of the expected size. */
  predicate AllStorable(cells: map<Ptr, MemCell>, base: Ptr, n: nat, cellSize: nat) {
    forall p | base <= p < base + n :: Storable(cells, p, cellSize)
  }

  /** One more store: the size check at base + n sees the original cell, and the
      memory after it is the next prefix. */
  lemma StoreStep(cells: map<Ptr, MemCell>, base: Ptr, vals: seq<Var>, n: nat, cellSize: nat)
    requires n < |vals|
    ensures Storable(StoredPrefix(cells, base, vals, n), base + n, cellSize) <==> Storable(cells, base + n, cellSize)
    ensures AllStorable(cells, base, n, cellSize) && Storable(cells, base + n, cellSize)
            ==> AllStorable(cells, base, n + 1, cellSize)
    ensures var m := StoredPrefix(cells, base, vals, n);
            base + n in m ==> StoredPrefix(cells, base, vals, n + 1) == m[base + n := MemCell(m[base + n].size, vals[n])]
  {
  }

  /** One iteration of the store loop: the size assertion, then the store. */
  method CheckedStore(memory: ProgramMemory, p: Ptr, v: Var, cellSize: nat) returns (outcome: Outcome)
    modifies memory
    ensures outcome.Ok? <==> Storable(old(memory.cells), p, cellSize)
    ensures outcome.Fatal? ==> outcome == Fatal(CELL_SIZE_MISMATCH) && memory.cells == old(memory.cells)
    ensures outcome.Ok? ==> memory.cells == old(memory.cells)[p := MemCell(old(memory.cells)[p].size, v)]
  {
    if !Storable(memory.cells, p, cellSize) {
      return Fatal(CELL_SIZE_MISMATCH);
    }
    memory.Store(p, v);
    outcome := Ok;
  }

  /** One iteration of the store loop, as a step from the memory after n stores of
      vals to the memory after n + 1. */
  method StoreNext(memory: ProgramMemory, p: Ptr, v: Var, cellSize: nat,
                   ghost original: map<Ptr, MemCell>, ghost base: Ptr, ghost vals: seq<Var>, ghost n: nat)
    returns (outcome: Outcome)
    requires n < |vals| && v == vals[n] && p == base + n
    requires AllStorable(original, base, n, cellSize)
    requires memory.cells == StoredPrefix(original, base, vals, n)
    modifies memory
    ensures outcome.Ok? <==> Storable(original, base + n, cellSize)
    ensures outcome.Fatal? ==> outcome == Fatal(CELL_SIZE_MISMATCH) && memory.cells == old(memory.cells)
    ensures outcome.Ok? ==> AllStorable(original, base, n + 1, cellSize)
                            && memory.cells == StoredPrefix(original, base, vals, n + 1)
  {
    StoreStep(original, base, vals, n, cellSize);
    outcome := CheckedStore(memory, p, v, cellSize);
  }

  /** The inner store loop, for triple i: stores its three variables at
      base + 3 * i to base + 3 * i + 2, stopping at the first cell whose size is wrong. */
  method StoreTriple(memory: ProgramMemory, base: Ptr, result: seq<Triple>, i: nat, cellSize: nat,
                     ghost original: map<Ptr, MemCell>)
    returns (outcome: Outcome, stored: nat)
    requires i < |result|
    requires AllStorable(original, base, 3 * i, cellSize)
    requires memory.cells == StoredPrefix(original, base, Flatten(result), 3 * i)
    modifies memory
    ensures 3 * i <= stored <= 3 * i + 3
    ensures outcome.Ok? <==> stored == 3 * i + 3
    ensures AllStorable(original, base, stored, cellSize)
    ensures outcome.Fatal? ==> outcome == Fatal(CELL_SIZE_MISMATCH) && !Storable(original, base + stored, cellSize)
    ensures memory.cells == StoredPrefix(original, base, Flatten(result), stored)
  {
    ghost var flat := Flatten(result);
    var resultPtr := base + 3 * i;
    stored := 3 * i;
    for j := 0 to 3
      invariant resultPtr == base + 3 * i + j && stored == 3 * i + j
      invariant AllStorable(original, base, stored, cellSize)
      invariant memory.cells == StoredPrefix(original, base, flat, stored)
    {
      FlattenAt(result, i, j);
      outcome := StoreNext(memory, resultPtr, result[i].At(j), cellSize, original, base, flat, stored);
      if outcome.Fatal? {
        return;
      }
      resultPtr := resultPtr + 1;
      stored := stored + 1;
    }
    outcome := Ok;
  }

  /** The store loop: stored counts the stores made, all to consecutive addresses
      from base; the loop stops at the first cell whose size is wrong. */
  method StoreResult(memory: ProgramMemory, base: Ptr, result: seq<Triple>, cellSize: nat)
    returns (outcome: Outcome, stored: nat)
    modifies memory
    ensures stored <= 3 * |result|
    ensures outcome.Ok? <==> stored == 3 * |result|
    ensures AllStorable(old(memory.cells), base, stored, cellSize)
    ensures outcome.Fatal? ==> outcome == Fatal(CELL_SIZE_MISMATCH) && !Storable(old(memory.cells), base + stored, cellSize)
    ensures memory.cells == StoredPrefix(old(memory.cells), base, Flatten(result), stored)
  {
    ghost var original := memory.cells;
    stored := 0;
    for i := 0 to |result|
      invariant stored == 3 * i
      invariant AllStorable(original, base, stored, cellSize)
      invariant memory.cells == StoredPrefix(original, base, Flatten(result), stored)
    {
      outcome, stored := StoreTriple(memory, base, result, i, cellSize, original);
      if outcome.Fatal? {
        return;
      }
    }
    outcome := Ok;
  }

  /** The three marshalling checks, in the order the handler makes them. */
  function MarshalCheck(dec: Decoders, omegaValue: Id, totalBitsValue: Id, resultLengthValue: Id): (r: Outcome)
    ensures r.Ok? <==> |dec.marshal(omegaValue)| == 1 && |dec.marshal(totalBitsValue)| == 1
                       && |dec.marshal(resultLengthValue)| == 1
  {
    if |dec.marshal(omegaValue)| != 1 then Fatal(OMEGA_NOT_SINGLE)
    else if |dec.marshal(totalBitsValue)| != 1 then Fatal(TOTAL_BITS_NOT_SINGLE)
    else if |dec.marshal(resultLengthValue)| != 1 then Fatal(RES_LENGTH_NOT_SINGLE)
    else Ok
  }

  /** A field value converted to a std::size_t. */
  function ToSizeT(x: nat): (r: SizeT)
    ensures x < SIZE_T_MODULUS ==> r == x
    ensures r <= x && (x - r) % SIZE_T_MODULUS == 0
  {
    x % SIZE_T_MODULUS
  }

  /** handle_native_fri_cosets_component. The component's output is the parameter
      result; the base pointer is the value of the variable bound to the result
      operand. */
  method HandleNative(
    resultValue: Id, resultLengthValue: Id, omegaValue: Id, totalBitsValue: Id, input: Id,
    scalars: map<Id, Var>, memory: ProgramMemory, bp: Circuit, a: Assignment,
    dec: Decoders, layout: seq<nat>, numberBits: nat, startRow: nat, result: seq<Triple>)
    returns (outcome: Outcome, stored: nat)
    requires input in scalars
    requires MarshalCheck(dec, omegaValue, totalBitsValue, resultLengthValue).Ok? ==>
               resultValue in scalars && CellOf(scalars[resultValue]) in a.cells
    modifies memory, bp, a
    ensures MarshalCheck(dec, omegaValue, totalBitsValue, resultLengthValue).Fatal? ==>
              && outcome == MarshalCheck(dec, omegaValue, totalBitsValue, resultLengthValue)
              && memory.cells == old(memory.cells) && bp.components == old(bp.components)
              && a.generated == old(a.generated) && a.cells == old(a.cells)
    ensures MarshalCheck(dec, omegaValue, totalBitsValue, resultLengthValue).Ok? ==>
              var call := ComponentCall(
                FriCosets(layout, ToSizeT(dec.marshal(resultLengthValue)[0]), ToSizeT(dec.marshal(totalBitsValue)[0]),
                          dec.marshal(omegaValue)[0]),
                FriInput(scalars[input]),
                startRow);
              && CellOf(scalars[resultValue]) in a.cells
              && var base := VarValue(a.cells, scalars[resultValue]);
              && bp.components == old(bp.components) + [call]
              && a.generated == old(a.generated) + [call]
              && stored <= 3 * |result|
              && (outcome.Ok? <==> stored == 3 * |result|)
              && AllStorable(old(memory.cells), base, stored, CellBytes(numberBits))
              && (outcome.Fatal? ==> outcome == Fatal(CELL_SIZE_MISMATCH)
                                     && !Storable(old(memory.cells), base + stored, CellBytes(numberBits)))
              && memory.cells == StoredPrefix(old(memory.cells), base, Flatten(result), stored)
  {
    var componentInput := scalars[input];

    outcome := MarshalCheck(dec, omegaValue, totalBitsValue, resultLengthValue);
    stored := 0;
    if outcome.Fatal? {
      return;
    }
    var omega := dec.marshal(omegaValue)[0];
    var totalBits := ToSizeT(dec.marshal(totalBitsValue)[0]);
    var resLength := ToSizeT(dec.marshal(resultLengthValue)[0]);

    var component := FriCosets(layout, resLength, totalBits, omega);
    GenerateComponentCircuit(bp, a, ComponentCall(component, FriInput(componentInput), startRow));
    GenerateComponentAssignments(a, ComponentCall(component, FriInput(componentInput), startRow));

    var resultPtr := VarValue(a.cells, scalars[resultValue]);
    outcome, stored := StoreResult(memory, resultPtr, result, CellBytes(numberBits));
  }

  /** handle_fri_cosets_component: operands 0 to 4 are the result pointer, the result
      length, omega, total_bits and the input. The stack frame is only read: nothing
      is bound under the instruction. */
  method Handle(inst: Instruction, frame: StackFrame, memory: ProgramMemory, bp: Circuit, a: Assignment,
                dec: Decoders, layout: seq<nat>, numberBits: nat, startRow: nat, result: seq<Triple>)
    returns (outcome: Outcome, stored: nat)
    requires |inst.operands| >= OPERANDS
    requires inst.operands[INPUT] in frame.scalars
    requires MarshalCheck(dec, inst.operands[OMEGA], inst.operands[TOTAL_BITS], inst.operands[RESULT_LENGTH]).Ok? ==>
               inst.operands[RESULT] in frame.scalars && CellOf(frame.scalars[inst.operands[RESULT]]) in a.cells
    modifies memory, bp, a
    ensures MarshalCheck(dec, inst.operands[OMEGA], inst.operands[TOTAL_BITS], inst.operands[RESULT_LENGTH]).Fatal? ==>
              && outcome == MarshalCheck(dec, inst.operands[OMEGA], inst.operands[TOTAL_BITS], inst.operands[RESULT_LENGTH])
              && memory.cells == old(memory.cells) && bp.components == old(bp.components)
              && a.generated == old(a.generated) && a.cells == old(a.cells)
    ensures MarshalCheck(dec, inst.operands[OMEGA], inst.operands[TOTAL_BITS], inst.operands[RESULT_LENGTH]).Ok? ==>
              var call := ComponentCall(
                FriCosets(layout, ToSizeT(dec.marshal(inst.operands[RESULT_LENGTH])[0]),
                          ToSizeT(dec.marshal(inst.operands[TOTAL_BITS])[0]), dec.marshal(inst.operands[OMEGA])[0]),
                FriInput(frame.scalars[inst.operands[INPUT]]),
                startRow);
              && bp.components == old(bp.components) + [call]
              && a.generated == old(a.generated) + [call]
              && CellOf(frame.scalars[inst.operands[RESULT]]) in a.cells
              && var base := VarValue(a.cells, frame.scalars[inst.operands[RESULT]]);
              && stored <= 3 * |result|
              && (outcome.Ok? <==> stored == 3 * |result|)
              && (outcome.Ok? <==> AllStorable(old(memory.cells), base, 3 * |result|, CellBytes(numberBits)))
              && AllStorable(old(memory.cells), base, stored, CellBytes(numberBits))
              && (outcome.Fatal? ==> outcome == Fatal(CELL_SIZE_MISMATCH)
                                     && !Storable(old(memory.cells), base + stored, CellBytes(numberBits)))
              && memory.cells == StoredPrefix(old(memory.cells), base, Flatten(result), stored)
  {
    var resultValue := inst.operands[RESULT];
    var resultLengthValue := inst.operands[RESULT_LENGTH];
    var omegaValue := inst.operands[OMEGA];
    var totalBitsValue := inst.operands[TOTAL_BITS];
    var input := inst.operands[INPUT];

    outcome, stored := HandleNative(resultValue, resultLengthValue, omegaValue, totalBitsValue, input,
                                    frame.scalars, memory, bp, a, dec, layout, numberBits, startRow, result);
  }
}
