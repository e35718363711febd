# zkllvm-assigner component handlers in Dafny

This project models five pieces of the zkllvm assigner. The assigner walks the LLVM IR
of a circuit program and turns each circuit intrinsic into calls of blueprint
components. Each call adds constraints to the circuit (`bp`) and fills witness cells of
the assignment table. The five pieces are:

- the **select** mockup component, a one-row witness assignment (module `Select`);
- the **gate-argument verifier** handler (module `GateArgVerifier`);
- the **lookup-argument verifier** handler (module `LookupArgVerifier`);
- the **FRI cosets** handler, which writes the component's output into program memory
  (module `FriCosets`);
- the **curve addition** handler (module `CurveAddition`).

They share the state in module `Common`:

- The stack frame is a class with `scalars` and `vectors` maps from IR values to
  circuit variables.
- Program memory is a class mapping addresses to sized cells.
- The circuit and the assignment table are classes. The circuit records the component
  calls whose constraints were added. The table holds the cell values and records the
  component calls whose witnesses were generated.

Every handler is a method that changes that state. Its contract states:

- which checks abort the translation, and with which message (`Outcome.Fatal`);
- that nothing changes when a check made before the component call aborts (the FRI cosets cell-size check comes after the call and after earlier stores, and its contract states the state it leaves);
- exactly which component call it makes and what it binds in the frame or stores in
  memory when it succeeds.

The pure parts are functions with lemmas about them. These are the select
assignment, the size checks, the operand layout of the lookup verifier, the memory
layout of the FRI output and the curve dispatch.

Components of the external library are not modelled inside. Their calls are
recorded, and their outputs are parameters of the handlers. The marshalling helpers
are the fields of `Common.Decoders`, which are uninterpreted functions of the operand
they decode.

## Model

| member | source | states |
|---|---|---|
| Select.RowsAmount | include/nil/blueprint/component_mockups/select.hpp:57-59 | the component occupies one row whatever its width (get_rows_amount at select.hpp:101-105 forwards to it) |
| Select.GatesAmount | include/nil/blueprint/component_mockups/select.hpp:61-63 | the component declares one gate |
| Select.EmptyRowsAmount | include/nil/blueprint/component_mockups/select.hpp:106-108 | an empty assignment occupies one row |
| Select.ResultOf | include/nil/blueprint/component_mockups/select.hpp:136-138 | the result names an absolute witness cell of the start row, and that cell is one the assignment writes |
| Select.ManifestAsWritten | include/nil/blueprint/component_mockups/select.hpp:92-99 | the declared witness range starts at 3 columns; its upper end is the number of 28-bit limbs needed for the modulus, rounded up (max * 28 covers the modulus bits with less than one limb to spare) |
| Select.ManifestAsWrittenAdmitsThreeColumns | include/nil/blueprint/component_mockups/select.hpp:95 | with a 255-bit modulus the declared range admits 3 columns, fewer than the 4 columns the assignment writes |
| Select.Manifest | include/nil/blueprint/component_mockups/select.hpp:92-99 | the corrected range has lower bound 4 and keeps the declared upper bound |
| Select.ManifestAdmitsOnlyWritableLayouts | include/nil/blueprint/component_mockups/select.hpp:212-218 | every layout the corrected range admits has the columns W(0) to W(3) that the assignment writes |
| Select.WrittenCells | include/nil/blueprint/component_mockups/select.hpp:212-218 | the cells written are witness cells inside the single row the component occupies, and they include W(0) to W(3) of the start row |
| Select.Assigned | include/nil/blueprint/component_mockups/select.hpp:202-218 | the table gains exactly the four written cells; W(0) holds the true value when the condition is nonzero and the false value otherwise; with distinct columns W(1), W(2), W(3) hold condition, true value and false value; all other cells are unchanged |
| Select.ResultHoldsSelectedValue | include/nil/blueprint/component_mockups/select.hpp:133-143 | the result variable, read back from the table after the assignment, holds the selected value, even when an input names one of the written cells |
| Select.GenerateCircuit | include/nil/blueprint/component_mockups/select.hpp:174-189 | circuit generation writes no cell and returns the absolute variable of W(0) at the start row |
| Select.GenerateAssignments | include/nil/blueprint/component_mockups/select.hpp:191-221 | the new table is `Assigned` of the old one, and the result names W(0) at the start row |
| Select.GenerateEmptyAssignments | include/nil/blueprint/component_mockups/select.hpp:223-253 | the same effect and result as generate_assignments |
| GateArgVerifier.SumGatesSizes | include/nil/blueprint/recursive_prover/gate_arg_verifier.hpp:77-80 | the loop's size_t accumulator ends at the exact sum of the gate sizes modulo 2^64 |
| GateArgVerifier.ValidateGatesSizes | include/nil/blueprint/recursive_prover/gate_arg_verifier.hpp:75-90 | success iff there is one size per gate and the summed sizes equal the constraint count; a wrong number of sizes fails the first assertion; otherwise a wrong sum fails with the "not equal to the sum" message |
| GateArgVerifier.ExampleSizes | include/nil/blueprint/recursive_prover/gate_arg_verifier.hpp:75-90 | sizes [2, 3, 1] for 3 gates are accepted with exactly 6 constraints |
| GateArgVerifier.ConsistentMeansExactSum | include/nil/blueprint/recursive_prover/gate_arg_verifier.hpp:77-82 | when the exact sum fits in a std::size_t, the check compares the exact sum |
| GateArgVerifier.WrappedSumAcceptsOverflow | include/nil/blueprint/recursive_prover/gate_arg_verifier.hpp:77-82 | sizes 2^64-1 and 1, whose exact sum is 2^64, pass the check against 0 constraints |
| GateArgVerifier.HandleNative | include/nil/blueprint/recursive_prover/gate_arg_verifier.hpp:47-115 | success iff the sizes are consistent; a failure carries the count-assertion message when the number of sizes differs from the gate count and the sum message otherwise, and leaves the circuit and table untouched; on success the verifier built from the gate sizes, with input {theta, constraints, selectors}, is added to the circuit and then assigned, and its output is returned |
| GateArgVerifier.Handle | include/nil/blueprint/recursive_prover/gate_arg_verifier.hpp:119-140 | operands 0 to 5 feed the native handler; success iff the sizes are consistent, and a failure carries the same message as the native handler's and changes nothing; on success only the scalar bound to the instruction changes, to the component's output; the frame's vectors never change |
| LookupArgVerifier.LayoutIsBijection | include/nil/blueprint/recursive_prover/lookup_arg_verifier.hpp:58-92 | every role has its own operand among 0 to 32, and every operand position has exactly one role |
| LookupArgVerifier.InputOperandsCover | include/nil/blueprint/recursive_prover/lookup_arg_verifier.hpp:78-82 | the nine (vector, length) pairs occupy operands 8 to 25, each position exactly once |
| LookupArgVerifier.ExtractInputVectors | include/nil/blueprint/recursive_prover/lookup_arg_verifier.hpp:75-82 | nine vectors, vector i extracted from operand 8+2i with the length decoded from operand 9+2i |
| LookupArgVerifier.AssembleInput | include/nil/blueprint/recursive_prover/lookup_arg_verifier.hpp:122-139 | the verifier's 16 input members in order: theta, beta, gamma, input vector 0, the V_L, q_last and q_blind pairs, L0, then input vectors 1 to 8 |
| LookupArgVerifier.ConstraintsSizeUnchecked | include/nil/blueprint/recursive_prover/lookup_arg_verifier.hpp:72 | operand 7, declared as the sum of the gate constraint sizes, is neither checked nor used: changing its value changes neither the size check nor the component call |
| LookupArgVerifier.ExtractedCallIsLookupCall | include/nil/blueprint/recursive_prover/lookup_arg_verifier.hpp:96-139 | the call built from the decoded operands and the frame values is the one `LookupCall` specifies |
| LookupArgVerifier.BuildCall | include/nil/blueprint/recursive_prover/lookup_arg_verifier.hpp:58-139 | decoding the operands after the size check and looking up theta, beta, gamma, L0, V_L, q_last and q_blind builds exactly the call `LookupCall` specifies by operand role |
| LookupArgVerifier.Handle | include/nil/blueprint/recursive_prover/lookup_arg_verifier.hpp:46-145 | success iff operands 1 and 3 decode to the same table size; on failure nothing changes; on success the specified call is added to the circuit and assigned, and the instruction's vector becomes the four outputs in order; the frame's scalars never change |
| FriCosets.Flatten | include/nil/blueprint/recursive_prover/fri_cosets.hpp:90-95 | the triples laid out element after element take three slots each |
| FriCosets.FlattenAt | include/nil/blueprint/recursive_prover/fri_cosets.hpp:90-93 | element j of triple i sits at offset 3i+j |
| FriCosets.StoredPrefix | include/nil/blueprint/recursive_prover/fri_cosets.hpp:93 | after n stores from base, every allocated address in [base, base+n) holds the value at its offset; sizes and all other cells are unchanged |
| FriCosets.StoreStep | include/nil/blueprint/recursive_prover/fri_cosets.hpp:92-93 | the size check at the next address sees the original cell; one more store extends the stored prefix by one |
| FriCosets.CheckedStore | include/nil/blueprint/recursive_prover/fri_cosets.hpp:92-93 | a store succeeds iff the cell is allocated with the expected byte size; it keeps the cell's size; a failure changes nothing |
| FriCosets.StoreNext | include/nil/blueprint/recursive_prover/fri_cosets.hpp:92-93 | one checked store at base+n succeeds iff the original cell there has the expected size, and then extends the stored prefix to n+1 values; a failure changes nothing |
| FriCosets.StoreTriple | include/nil/blueprint/recursive_prover/fri_cosets.hpp:91-94 | the inner loop stores up to the three values of triple i, stopping at the first mis-sized cell, and memory is the stored prefix |
| FriCosets.StoreResult | include/nil/blueprint/recursive_prover/fri_cosets.hpp:88-95 | the store loop succeeds iff all 3·len addresses from base are storable; it stops at the first mis-sized cell; memory is the prefix stored so far |
| FriCosets.CellBytes | include/nil/blueprint/recursive_prover/fri_cosets.hpp:92 | the expected cell size is the number of bytes needed for the field's bits, rounded up |
| FriCosets.ToSizeT | include/nil/blueprint/recursive_prover/fri_cosets.hpp:70-74 | the conversion to std::size_t keeps values below 2^64 and otherwise agrees with its input modulo 2^64 |
| FriCosets.MarshalCheck | include/nil/blueprint/recursive_prover/fri_cosets.hpp:64-74 | success iff omega, total_bits and res_length each marshal to exactly one field element |
| FriCosets.HandleNative | include/nil/blueprint/recursive_prover/fri_cosets.hpp:47-96 | on a marshalling failure nothing changes; otherwise the component (with total_bits and res_length converted to std::size_t) is added to the circuit and assigned, and its triples are stored from the address held by the result operand's variable, read from the table after assignment generation; a mis-sized cell stops the stores with the size-assertion message, leaving the stores made before it |
| FriCosets.Handle | include/nil/blueprint/recursive_prover/fri_cosets.hpp:100-119 | operands 0 to 4 feed the native handler; a marshalling failure changes nothing; otherwise the component call is made, success iff all result addresses are storable, memory holds the first `stored` flattened values (all of them on success), and a failure carries the size-assertion message at the first mis-sized address; nothing is bound in the frame |
| CurveAddition.Plan | include/nil/blueprint/curves/addition.hpp:99-165 | addition proceeds iff both operands are Pallas points and the circuit's field is the Pallas base field; a non-curve operand or different curves abort; every other curve aborts with its own message, chosen by whether the field is the curve's base field; an unknown curve aborts as unsupported |
| CurveAddition.RejectionMessage | include/nil/blueprint/curves/addition.hpp:119-165 | the switch's abort messages differ from the cast and curve-kind aborts; only an unknown curve gets the unsupported message; Pallas aborts only as non-native |
| CurveAddition.AdditionComponent | include/nil/blueprint/curves/addition.hpp:67 | a Pallas unified addition component with witness columns 0 to 10 |
| CurveAddition.AdditionInputOf | include/nil/blueprint/curves/addition.hpp:74-77 | P and Q are the first two variables of each operand's vector |
| CurveAddition.HandleNativeUnifiedAddition | include/nil/blueprint/curves/addition.hpp:51-82 | the addition of P and Q is added to the circuit and assigned, and the component's result is returned |
| CurveAddition.HandleCurveAddition | include/nil/blueprint/curves/addition.hpp:85-167 | success iff `Plan` admits the operands; an abort carries the plan's message and changes nothing; on success the addition call is made and the instruction's vector becomes the sum's X and Y; the frame's scalars never change |

## Left out

- The external components' internals are not modelled. This covers the basic-constraints verifier, the lookup verifier, FRI cosets and unified addition: their constraints, their witness values and the values of their outputs. Their outputs are handler parameters. Circuit generation and assignment generation are both handed the table and may write cells of it. Both are assumed never to remove a cell (FriCosets.HandleNative relies on this to read the result pointer afterwards); nothing is assumed about the values they write.
- PolicyManager and ManifestReader are not part of this model. The witness layout they choose is the parameter `layout`. Constants and public inputs are not modelled.
- The marshalling helpers are not part of this model: extract_constant_size_t_value, extract_constant_vector, extract_intrinsic_input_vector and marshal_field_val. They are uninterpreted functions of the operand they decode. extract_intrinsic_input_vector also reads the frame, memory and the table, which is not captured.
- Field and curve arithmetic, the field values themselves and the conversion of a field value to its integral type are not modelled. Values in the table are naturals, and a field value converted to std::size_t is taken modulo 2^64.
- Circuit and assignment generation each log their own calls. That every handler adds a component's constraints before generating its assignment shows only in the method bodies.
- FriCosets.HandleNative: the conversion of the result pointer to ptr_type and its increment are unbounded, so ptr_type wrap-around is not modelled.
- FriCosets.HandleNative: the source asserts the size of `memory[result_ptr]`. An address with no allocated cell is treated as failing that assertion.
- FriCosets.HandleNative: the number of bits of the field is the parameter numberBits.
- std::map operator[] on an absent key inserts a default entry. The handlers instead require the looked-up values to be bound. Where a check comes first, that requirement holds only when the check passes.
- A failed ASSERT, UNREACHABLE or assert aborts the translation (`Fatal`). Builds where assertions compile away are not modelled. The diagnostic output to std::cerr is not modelled.
- CurveAddition.Plan: a non-curve operand, where llvm::cast fails, is an abort with a message of this model's own. So is the unlabelled assertion that both curve kinds match.
- Select: get_gate_manifest and the gate_manifest_type class are not modelled. Only the manifest's witness range is. The range's upper bound is taken as inclusive, because the manifest range class is not part of this model.
- Select.GenerateCircuit adds no gate, although gates_amount_internal reports one gate. It is modelled as written.

## Findings

| source | as written | input that shows it | evidently intended | confidence | as-written member | corrected member |
|---|---|---|---|---|---|---|
| include/nil/blueprint/component_mockups/select.hpp:95 | the manifest admits layouts from 3 witness columns, but generate_assignments writes W(0) to W(3) (select.hpp:212-218) | a 255-bit modulus and a layout of 3 witness columns: the range is [3, 10], so 3 is admitted, and W(3) does not exist | the lower bound is 4, the number of columns written | medium, not executed | Select.ManifestAsWrittenAdmitsThreeColumns | Select.ManifestAdmitsOnlyWritableLayouts |

The gate-size sum in gate_arg_verifier.hpp:77-80 is accumulated in a std::size_t. Sizes whose exact sum reaches 2^64 or more can therefore pass the check
(`GateArgVerifier.WrappedSumAcceptsOverflow`). The model keeps this wrap-around as
written. It is noted here rather than listed as a finding, because the source may rely on
the sizes being small.
