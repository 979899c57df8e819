# caie-assembly-interpreter: the machine, its opcode tables and its registers

This project models the execution engine of caie-assembly-interpreter in Dafny.
The engine is a teaching machine for the CAIE assembly language: six
fixed-width registers (ACC, IX, CIR, MAR, MDR, PC), a sparse memory of
numbered cells, four status flags (carry, negative, overflow, zero), an
`end` flag, and pluggable input and output devices. `execute(program)` loads
the i-th instruction word into cells 2i (opcode) and 2i + 1 (operand), resets
PC to 0, and then fetches, decodes and executes at PC. It does so at most as
many times as the program has instructions, and stops early when the
branching END (0x33) raises `end` or an instruction throws.

The modules follow the source files:

- `Registers` covers `register.ts`.
  - `Truncate` is the value that `setVal` stores: the leading `bits` characters of the value's binary spelling.
  - `JsTruncate` is a reference model of the source expression `parseInt(v.toString(2).slice(0, bits), 2)`, written over strings. `TruncateMatchesJs` proves the two agree.
  - `Register` is a class with the width and `Valid()` invariant: the stored value is always its own truncation.
- `JsObjects` models object literals as association lists in key order. It covers assignment, spread (`{...a, ...b}`) and `Object.keys(o).find(...)`, which are all the opcode tables use.
- `Interpreter` holds the machine's opcode tables (`interpreter.ts`), their merge and `lookUpMnemonic`.
  - When the groups are spread together, the branching END (0x33) overwrites the data-move END (0x07).
  - `lookUpMnemonic(0x07)` therefore answers "UNKNOWN".
- `Instruction` holds the second copy of the tables in `instruction.ts`, together with the instruction types declared there. The machine does not use this copy.
  - That copy has no data-move END, adds JMR (0x34), and names 0x42 CMI.
  - The two `lookUpMnemonic`s are proved to agree on every opcode except 0x34 and 0x42.
- `Engine` covers `machine.ts` in two layers.
  - A value-level state `State` with the step function `StepAt`, the bounded run `Run`, and the loader `Load`/`Boot`.
  - The class `Machine`, whose methods update registers, memory, flags and devices in place. Each method is proved to move the abstract state `Abs()` exactly as the value-level function says.
- `EngineProperties` proves what one instruction and a whole run guarantee. Examples: only 0x33 raises `end`; a throw changes nothing but `end`; the PC update; the flags a comparison sets; CIR, MAR and MDR are never written; every register stays truncated; the output only grows.
- `EngineScenarios` proves the outcome of the repository's own test programs on both layers:
  - `LDM #2; ADD #3` gives 5;
  - `LDM #4; SUB #1` gives 3;
  - `IN; OUT; END` echoes 15;
  - an 8-bit machine outputs 97.
- `Utils` covers `isAlpha` from `src/utils.ts`.

A reader might expect a write to keep the low N bits of a value, as the comment "deal with overflow" at machine.ts:72 suggests. The code keeps the leading `bits` characters of the binary string instead. For a value of 2^bits or more, that means its most significant digits. For a negative value, the minus sign takes up one of the characters. The model follows the code: `Registers.TruncateIsNotModulo` shows that 256 in an 8-bit register becomes 128, not 0.

The contracts below are stated over value-level definitions. These definitions model the source directly but have no row of their own, since they carry no contract, or only one that repeats their definition:

- `Engine.Initial` is the state the constructor builds (machine.ts:30-58).
- `Engine.DataMoveCase`, `InputOutputCase`, `ArithmeticCase`, `BranchingCase` and `CompareCase` are the case groups of the switch in `executeInstruction` (machine.ts:151-191, 194-203, 206-225, 228-257, 260-277).
- `Engine.Switch` is the whole switch with its throwing default (machine.ts:149-282).
- `Engine.Dispatch` adds the PC update (machine.ts:284-286).
- `Engine.StepAt` is all of `executeInstruction` (machine.ts:145-287).
- `Engine.Steps`/`Engine.Run` are the run loop of `execute` (machine.ts:107-112). `Engine.Load` is the load loop (101-103). `Engine.Boot` adds the PC reset (105). `Engine.ExecuteProgram` is the whole of `execute` (100-113).
- The `Engine.Machine` rows relate each method to one of these definitions.
- `Engine.ReadCell` and `Engine.Machine.ReadMemory` are `readMemory` (machine.ts:76-78). `EngineProperties.ReadAfterWrite` and `EngineProperties.StoreThenLoad` state what a read gives after a write.
- `Engine.ReadOperand` reads the cell an operand names (machine.ts:156-160). `EngineProperties.LoadModes` and `EngineProperties.AddressArithmetic` state what the instructions that use it do.
- `Engine.Fetch` is `fetchDecodeInstruction` (machine.ts:135-143). `EngineProperties.BootLoadsProgram` states what it fetches from a loaded program.
- `Registers.Register.GetType` is `getType` (register.ts:23-25). The constructor's contract states that it returns the register's name.
- `Registers.KeepLeading` cuts a non-negative value to its leading digits, and `Registers.JsTruncate` is the string expression of register.ts:15. The `Registers` lemmas relate both to `Truncate`.
- `JsObjects.Assign`, `Spread` and `FindKey` are assignment, spread and `Object.keys(o).find(...)`. The `JsObjects` lemmas state their properties.
- `Interpreter.ALL_MNEMONICS` and `Interpreter.LookUpMnemonic` are interpreter.ts:50-56 and 58-60. `Instruction.ALL_MNEMONICS` and `Instruction.LookUpMnemonic` are instruction.ts:57-63 and 65-67. Their rows are the `AllMnemonicsTable`, `LookUpSpec` and `LookUpRoundTrip` lemmas.

## Model

| member | source | states |
|---|---|---|
| Registers.Truncate | src/libs/interpreter-core/register.ts:14-17 | The stored value lies strictly between -2^(bits-1) and 2^bits and keeps the sign of its input. A value already in that range is stored unchanged. |
| Registers.TruncateIdempotent | src/libs/interpreter-core/register.ts:14-17 | Storing a stored value again changes nothing. |
| Registers.TruncateLarge | src/libs/interpreter-core/register.ts:15 | A value of 2^bits or more keeps exactly its leading `bits` binary digits: it is shifted right by its excess length, and the result has `bits` digits. |
| Registers.TruncateNegative | src/libs/interpreter-core/register.ts:15 | A negative value whose magnitude is below 2^(bits-1) is stored unchanged. A larger magnitude is shifted right by its excess over bits-1 digits, because the minus sign takes one character; the result has bits-1 digits. |
| Registers.TruncateIsNotModulo | src/libs/interpreter-core/machine.ts:72 | The overflow handling is not reduction modulo 2^bits: 256 in 8 bits is stored as 128. |
| Registers.TruncateMatchesJs | src/libs/interpreter-core/register.ts:15 | For every integer and every width of 2 or more, the string expression `parseInt(v.toString(2).slice(0, bits), 2)` equals `Truncate`. |
| Registers.JsTruncateNonNegative | src/libs/interpreter-core/register.ts:15 | For v >= 0 the string expression gives the leading `bits` digits of v. |
| Registers.JsTruncateNegative | src/libs/interpreter-core/register.ts:15 | For v < 0 the string expression gives minus the leading bits-1 digits of the magnitude of v. |
| Registers.JsTruncateNaN | src/libs/interpreter-core/register.ts:15 | At width 0, and at width 1 with a negative value, the expression is NaN. |
| Registers.Register.constructor | src/libs/interpreter-core/register.ts:8-12 | A new register has the given name and width and holds 0. |
| Registers.Register.SetVal | src/libs/interpreter-core/register.ts:14-17 | After `setVal(v)` the register holds the truncation of v, and is still valid. |
| Registers.Register.GetVal | src/libs/interpreter-core/register.ts:19-21 | What a register returns is always a truncated value. |
| JsObjects.AssignGet | src/libs/interpreter-core/interpreter.ts:50-56 | After `o[k] = v`, reading k gives v and every other key reads as before. |
| JsObjects.SpreadAllFresh | src/libs/interpreter-core/instruction.ts:57-63 | Spreading an object none of whose keys is already present appends its properties in order. |
| JsObjects.FindKeySpec | src/libs/interpreter-core/interpreter.ts:58-60 | `find` returns undefined exactly when no property holds the value; otherwise it returns the key of the first property that does. |
| JsObjects.FindKeyGet | src/libs/interpreter-core/interpreter.ts:58-60 | With distinct keys, the key found holds the value searched for. |
| JsObjects.FindKeyRoundTrip | src/libs/interpreter-core/interpreter.ts:58-60 | With distinct values, finding a key's value returns that key. |
| JsObjects.FindKeySameEntries | src/libs/interpreter-core/instruction.ts:65-67 | Two objects with distinct values that hold the same properties of value v answer `find(v)` alike, in whatever order they hold them. |
| JsObjects.FindKeyAt | src/libs/interpreter-core/interpreter.ts:58-60 | With distinct values, finding the value at position i returns the key at position i. |
| Interpreter.GroupNibbles | src/libs/interpreter-core/interpreter.ts:6-48 | Each group's opcodes carry the group number (0 to 4) in the high nibble, and are distinct within the group. |
| Interpreter.AllMnemonicsTable | src/libs/interpreter-core/interpreter.ts:50-56 | The spread of the five groups is the 22-entry table in which END sits in eighth place with value 0x33. |
| Interpreter.MergedTableDistinct | src/libs/interpreter-core/interpreter.ts:50-56 | The merged table has no repeated name and no repeated opcode. |
| Interpreter.AllMnemonicsDistinct | src/libs/interpreter-core/interpreter.ts:50-56 | ALL_MNEMONICS has distinct keys and distinct values. |
| Interpreter.MergedTableEnd | src/libs/interpreter-core/interpreter.ts:36-41 | In the merged table END holds 0x33. |
| Interpreter.EndIsBranching | src/libs/interpreter-core/interpreter.ts:50-56 | ALL_MNEMONICS maps END to the branching opcode 0x33. |
| Interpreter.MergedTableNoDataMoveEnd | src/libs/interpreter-core/interpreter.ts:8-17 | No entry of the merged table holds 0x07. |
| Interpreter.MergedTableNoUnknown | src/libs/interpreter-core/interpreter.ts:58-60 | No key of the table is "UNKNOWN", so the fallback name cannot be confused with a real mnemonic. |
| Interpreter.LookUpRoundTrip | src/libs/interpreter-core/interpreter.ts:58-60 | Looking up the opcode stored under any key returns that key. |
| Interpreter.LookUpSpec | src/libs/interpreter-core/interpreter.ts:58-60 | The result is "UNKNOWN" exactly when no key holds the opcode; otherwise it is a key that holds it. |
| Interpreter.DataMoveEndUnknown | src/libs/interpreter-core/interpreter.ts:58-60 | The data-move END 0x07 looks up as "UNKNOWN" after the merge. |
| Interpreter.MergedTableValues | src/libs/interpreter-core/interpreter.ts:50-56 | The opcodes held by the merged table are exactly the 22 named ones. |
| Interpreter.NamedIff | src/libs/interpreter-core/interpreter.ts:58-60 | An opcode has a name other than "UNKNOWN" exactly when it is one of the 22 in the merged table. |
| Instruction.GroupNibbles | src/libs/interpreter-core/instruction.ts:13-55 | The data-move, branching and compare opcodes carry their group number in the high nibble. |
| Instruction.MergedTableDistinct | src/libs/interpreter-core/instruction.ts:57-63 | The 23-entry table has distinct keys and distinct values. |
| Instruction.AllMnemonicsTable | src/libs/interpreter-core/instruction.ts:57-63 | No group shares a key with another, so the spread is the five groups one after another. |
| Instruction.AllMnemonicsDistinct | src/libs/interpreter-core/instruction.ts:57-63 | ALL_MNEMONICS has distinct keys and distinct values. |
| Instruction.MergedTableNoUnknown | src/libs/interpreter-core/instruction.ts:65-67 | No key of this table is "UNKNOWN". |
| Instruction.LookUpRoundTrip | src/libs/interpreter-core/instruction.ts:65-67 | Looking up the opcode stored under any key returns that key. |
| Instruction.LookUpSpec | src/libs/interpreter-core/instruction.ts:65-67 | The result is "UNKNOWN" exactly when no key holds the opcode; otherwise it is a key that holds it. |
| Instruction.SameEntries | src/libs/interpreter-core/instruction.ts:15-55 | Apart from opcodes 0x34 and 0x42, every (name, opcode) pair of one merged table occurs in the other. |
| Instruction.MergedTablesAgree | src/libs/interpreter-core/instruction.ts:57-63 | Apart from 0x34 and 0x42, both merged tables give the same answer to `find`. |
| Instruction.AgreesWithInterpreter | src/libs/interpreter-core/instruction.ts:65-67 | The two `lookUpMnemonic`s agree on every opcode except 0x34 and 0x42. This includes 0x07, which is "UNKNOWN" in both. |
| Instruction.Differences | src/libs/interpreter-core/instruction.ts:42-55 | 0x34 is "JMR" here and "UNKNOWN" to the machine; 0x42 is "CMI" here and "CMI_ADDRESS" to the machine. |
| Instruction.OwnNames | src/libs/interpreter-core/instruction.ts:65-67 | This table names 0x34 JMR and 0x42 CMI. |
| Instruction.MachineNames | src/libs/interpreter-core/interpreter.ts:58-60 | The machine's table names 0x34 "UNKNOWN" and 0x42 "CMI_ADDRESS". |
| Instruction.MachineTableNoJmr | src/libs/interpreter-core/interpreter.ts:36-41 | No entry of the machine's merged table holds 0x34. |
| Utils.IsAlpha | src/utils.ts:1 | True exactly when the string is non-empty and every character is an ASCII letter. |
| Utils.IsAlphaConcat | src/utils.ts:1 | Two non-empty strings joined pass exactly when both pass. |
| Utils.NonLettersRejected | src/utils.ts:1 | Any character that is not an ASCII letter, at any position of a string, makes the string fail. |
| Utils.Examples | src/utils.ts:1 | "LDM", "loop", "Start" pass; "", "ADD_ADDRESS", "l1", "end:" fail. |
| Engine.CompareFlags | src/libs/interpreter-core/machine.ts:84-98 | Z is 1 exactly when the difference is 0; N is 1 exactly when it is negative; C equals N; O is unchanged. |
| Engine.LoadCells | src/libs/interpreter-core/machine.ts:101-103 | After loading n instructions, instruction i sits in cells 2i and 2i+1, and no other cell changed. |
| Engine.Machine.constructor | src/libs/interpreter-core/machine.ts:30-58 | A new machine has six fresh registers of the given width, all 0, with flags 0, empty memory, and no devices. |
| Engine.Machine.Create | src/libs/interpreter-core/machine.ts:30-33 | The construction throws "Bits must be greater than 8" exactly when the width is below 8; otherwise it yields the fresh machine. |
| Engine.Machine.AddDevice | src/libs/interpreter-core/machine.ts:60-69 | Attaching an input device sets what IN reads; attaching an output device enables output. Nothing else changes. |
| Engine.Machine.SetMemory | src/libs/interpreter-core/machine.ts:71-74 | The cell takes the value truncated to the machine's width; nothing else changes. |
| Engine.Machine.SetSPNum | src/libs/interpreter-core/machine.ts:80-98 | The flags become `CompareFlags` of the old flags and the difference; nothing else changes. |
| Engine.Machine.StoreInstructionInMemory | src/libs/interpreter-core/machine.ts:130-133 | Opcode and operand go, untruncated, into the address and the one after it; nothing else changes. |
| Engine.Machine.FetchDecodeInstruction | src/libs/interpreter-core/machine.ts:135-143 | The result is `Fetch` of the current memory. |
| Engine.Machine.SetAcc | src/libs/interpreter-core/machine.ts:153 | Only ACC changes, to the truncation of the value. |
| Engine.Machine.SetIx | src/libs/interpreter-core/machine.ts:175 | Only IX changes, to the truncation of the value. |
| Engine.Machine.SetPc | src/libs/interpreter-core/machine.ts:231 | Only PC changes, to the truncation of the value. |
| Engine.Machine.ExecuteDataMove | src/libs/interpreter-core/machine.ts:151-191 | The data-move cases change the machine state as `DataMoveCase` says, or report its throw without changing anything. |
| Engine.Machine.ExecuteInputOutput | src/libs/interpreter-core/machine.ts:194-203 | IN and OUT change the machine state as `InputOutputCase` says, or report the missing input device. |
| Engine.Machine.ExecuteArithmetic | src/libs/interpreter-core/machine.ts:206-225 | ADD and SUB change the machine state as `ArithmeticCase` says. |
| Engine.Machine.ExecuteBranching | src/libs/interpreter-core/machine.ts:228-257 | Jumps and END change the machine state as `BranchingCase` says, and report whether they jumped. |
| Engine.Machine.ExecuteCompare | src/libs/interpreter-core/machine.ts:260-277 | The comparisons change the machine state as `CompareCase` says. |
| Engine.Machine.Perform | src/libs/interpreter-core/machine.ts:149-282 | The switch changes the machine state as `Switch` says; an opcode with no case reports InvalidOpcode and changes nothing. |
| Engine.Machine.ExecuteDecoded | src/libs/interpreter-core/machine.ts:148-286 | The machine reaches the state, and reports the error, that `Dispatch` gives for the decoded instruction. |
| Engine.Machine.ExecuteInstruction | src/libs/interpreter-core/machine.ts:145-287 | One instruction takes the machine to the state that `StepAt` gives, and reports the same throw or none. |
| Engine.Machine.LoadProgram | src/libs/interpreter-core/machine.ts:101-105 | After the load loop and the PC reset, the machine state is `Boot` of the old state. |
| Engine.Machine.Execute | src/libs/interpreter-core/machine.ts:100-113 | `execute` takes the machine to the state, and reports the throw, that `ExecuteProgram` gives. That is a run of at most as many steps as the program has instructions from the booted state. |
| EngineProperties.EndOnlyAtBranchingEnd | src/libs/interpreter-core/machine.ts:146-257 | After one instruction `end` is raised exactly when the opcode was 0x33, and then the instruction completed. |
| EngineProperties.DataMoveEndIsNoOp | src/libs/interpreter-core/machine.ts:188-191 | 0x07 only lowers `end` and advances PC by 2. |
| EngineProperties.FailureChangesOnlyEnd | src/libs/interpreter-core/machine.ts:145-287 | A throwing instruction leaves the whole state as before, except that `end` is lowered. |
| EngineProperties.InvalidOpcodeIff | src/libs/interpreter-core/machine.ts:279-281 | An instruction throws InvalidOpcode exactly when its cell is unloaded or its opcode has no case. The error carries that opcode. For an unloaded cell it carries None, which stands for the TypeError raised when the default case formats an undefined opcode. |
| EngineProperties.IncDecThrow | src/libs/interpreter-core/machine.ts:279-281 | INC and DEC reach the throwing default. |
| EngineProperties.PcUpdate | src/libs/interpreter-core/machine.ts:284-286 | After a completed instruction PC is the truncated operand if a jump was taken (which depends on the opcode and ACC only), and the truncated PC + 2 otherwise. |
| EngineProperties.SwitchPc | src/libs/interpreter-core/machine.ts:228-251 | Only a taken jump reports a jump, and it sets PC to the truncated operand; every other case leaves PC alone. |
| EngineProperties.BranchingCaseIgnoresFlags | src/libs/interpreter-core/machine.ts:228-257 | A branching case is unaffected by the flags and leaves them alone. |
| EngineProperties.BranchIgnoresFlags | src/libs/interpreter-core/machine.ts:228-257 | A branching instruction neither reads nor writes the flags: with other flags it has the same outcome. |
| EngineProperties.CompareSetsFlags | src/libs/interpreter-core/machine.ts:260-277 | A comparison completes and changes only flags and PC. C and N become 1 when ACC is below the compared value and 0 otherwise. Z becomes 1 when ACC equals it and 0 otherwise. O is kept. With an unloaded immediate, no flag changes. |
| EngineProperties.ImmediateLoads | src/libs/interpreter-core/machine.ts:151-177 | The whole next state of LDM and LDR. ACC or IX takes the truncated operand, PC advances by 2 (truncated), `end` is lowered, and nothing else changes. With an unloaded operand they throw and change nothing but `end`. |
| EngineProperties.LoadModes | src/libs/interpreter-core/machine.ts:156-182 | The whole next state of LDD, LDI, LDX and MOV. ACC takes the truncated direct, indirect or indexed cell, or IX takes ACC (MOV). PC advances by 2 (truncated), `end` is lowered, and nothing else changes. Unloaded cells read as 0. |
| EngineProperties.StoreWritesAtMar | src/libs/interpreter-core/machine.ts:183-187 | STO ignores its operand: it writes truncated ACC at the address held in MAR and changes nothing else. |
| EngineProperties.AddressArithmetic | src/libs/interpreter-core/machine.ts:206-220 | The whole next state of ADD and SUB with an address operand. ACC becomes the truncated sum or difference of ACC and the cell the operand names, PC advances by 2 (truncated), `end` is lowered, and nothing else changes. Unloaded cells read as 0. |
| EngineProperties.ImmediateArithmetic | src/libs/interpreter-core/machine.ts:211-225 | The whole next state of ADD and SUB with an immediate operand. ACC becomes the truncated sum or difference of ACC and the operand, PC advances by 2 (truncated), `end` is lowered, and nothing else changes. With an unloaded operand JavaScript computes NaN; the model stops there with a `NotANumber` throw that changes nothing but `end`. |
| EngineProperties.ReadAfterWrite | src/libs/interpreter-core/machine.ts:71-78 | Reading the cell just written gives the value written; every other cell reads as before. An empty memory reads 0 everywhere. |
| EngineProperties.StoreThenLoad | src/libs/interpreter-core/machine.ts:71-78 | A value that STO writes with `setMemory` and LDD then reads back with `readMemory` from the same address arrives in ACC unchanged. |
| EngineProperties.InputConsumes | src/libs/interpreter-core/machine.ts:194-198 | IN throws with no input; otherwise ACC takes the next input value, truncated, and that value is consumed. |
| EngineProperties.OutputOnlyFromOut | src/libs/interpreter-core/machine.ts:199-203 | Only OUT with an output device appends to the output, and what it appends is ACC. Attaching devices is unaffected. |
| EngineProperties.StepKeepsUnusedRegisters | src/libs/interpreter-core/machine.ts:145-287 | No instruction writes CIR, MAR or MDR. |
| EngineProperties.SwitchKeepsTruncated | src/libs/interpreter-core/machine.ts:149-282 | Every case of the switch keeps every register truncated. |
| EngineProperties.StepKeepsTruncated | src/libs/interpreter-core/machine.ts:145-287 | After one instruction every register still holds a truncated value. |
| EngineProperties.StepsInvariant | src/libs/interpreter-core/machine.ts:107-112 | Whatever each step preserves, the whole loop preserves, whether it completes or throws. |
| EngineProperties.StepsContinue | src/libs/interpreter-core/machine.ts:107-112 | A loop that has not ended after k steps goes on as a fresh loop from where it stopped. |
| EngineProperties.StepsStopAtEnd | src/libs/interpreter-core/machine.ts:107-112 | Once `end` is raised, a larger step budget changes nothing. |
| EngineProperties.StepsStopAtThrow | src/libs/interpreter-core/machine.ts:107-112 | Once a step throws, a larger step budget changes nothing. |
| EngineProperties.RunKeepsUnusedRegisters | src/libs/interpreter-core/machine.ts:107-112 | A run never writes CIR, MAR or MDR. |
| EngineProperties.RunKeepsTruncated | src/libs/interpreter-core/machine.ts:107-112 | A run keeps every register truncated to the machine's width. |
| EngineProperties.RunOutputGrows | src/libs/interpreter-core/machine.ts:107-112 | The output after a run extends the output before it. |
| EngineProperties.RunContinues | src/libs/interpreter-core/machine.ts:107-112 | A run stops early only at END or a throw: one that has not ended goes on as a fresh run. |
| EngineProperties.RunStopsAtEnd | src/libs/interpreter-core/machine.ts:111 | After the branching END, more budget changes nothing. |
| EngineProperties.RunStopsAtThrow | src/libs/interpreter-core/machine.ts:107-112 | A throw ends the run for good. |
| EngineProperties.BootLoadsProgram | src/libs/interpreter-core/machine.ts:101-105 | After loading, instruction i is fetched from cell 2i with its operand, and PC is 0. |
| EngineProperties.ExecuteKeepsMarZero | src/libs/interpreter-core/machine.ts:183-187 | On a machine whose MAR is 0, MAR is still 0 after `execute`, so every STO writes cell 0. |
| EngineProperties.DispatchedIffNamed | src/libs/interpreter-core/machine.ts:149-281 | The switch has a case for exactly the opcodes the merged table names, minus INC and DEC, plus 0x07, whose name the merge lost. |
| EngineScenarios.LoadImmediateStep | src/libs/interpreter-core/machine.ts:151-155 | LDM #v with v in range puts v in ACC and advances PC by 2. |
| EngineScenarios.AddImmediateStep | src/libs/interpreter-core/machine.ts:211-215 | ADD #v within range adds v to ACC. |
| EngineScenarios.SubImmediateStep | src/libs/interpreter-core/machine.ts:221-225 | SUB #v within range subtracts v from ACC. |
| EngineScenarios.NoOpStep | src/libs/interpreter-core/machine.ts:188-191 | 0x07 only advances PC. |
| EngineScenarios.InStep | src/libs/interpreter-core/machine.ts:194-198 | IN with an in-range input value puts it in ACC and consumes it. |
| EngineScenarios.OutStep | src/libs/interpreter-core/machine.ts:199-203 | OUT with an output device emits ACC. |
| EngineScenarios.EndStep | src/libs/interpreter-core/machine.ts:253-257 | 0x33 raises `end` and advances PC. |
| EngineScenarios.AddProgramGivesFive | test/machine/arithmetic.test.ts:5-19 | `LDM #2; ADD #3; 0x07` on a 16-bit machine completes with ACC 5. All three instructions run, because 0x07 does not stop the run. |
| EngineScenarios.SubProgramGivesThree | test/machine/arithmetic.test.ts:21-33 | `LDM #4; SUB #1; 0x07` on a 16-bit machine completes with ACC 3. |
| EngineScenarios.EchoProgramOutputsInput | test/machine/io.test.ts:5-28 | `IN; OUT; END` with input 15 and an output device outputs exactly [15] and ends with `end` raised. |
| EngineScenarios.LetterProgramOutputs97 | src/components/__tests__/machine.test.ts:5-33 | `LDM #97; OUT; 0x07` on an 8-bit machine with an output device outputs exactly [97]. |
| EngineScenarios.AddScenario | test/machine/arithmetic.test.ts:5-19 | On the class: a new 16-bit machine executing the add program ends with ACC 5 and no error. |
| EngineScenarios.SubScenario | test/machine/arithmetic.test.ts:21-33 | On the class: the subtract program ends with ACC 3 and no error. |
| EngineScenarios.EchoScenario | test/machine/io.test.ts:5-28 | On the class, after attaching both devices, the echo program outputs [15] with no error. |
| EngineScenarios.LetterScenario | src/components/__tests__/machine.test.ts:5-33 | On an 8-bit machine with an output device, the letter program outputs [97] with no error. |
| EngineScenarios.NarrowMachineScenario | src/libs/interpreter-core/machine.ts:30-33 | Building a 7-bit machine fails with the width error. |

## Left out

- Engine.ArithmeticCase: ADD #n or SUB #n with an unloaded operand cell is modelled as a throw (`NotANumber`) that leaves the state unchanged. JavaScript would instead store NaN in ACC and go on. The model has no NaN register values.
- Engine.InputOutputCase: an input device is modelled as the finite sequence of values it will deliver. Once that sequence is used up, IN throws as if no input device were attached. The source's device is an arbitrary async callback.
- Engine.Machine.Create: the width must be given. The source's default width of 16 is not modelled.
- Registers.Register.constructor: requires a width of at least 2. Below that, the source's truncation can produce NaN, which `Registers.JsTruncateNaN` exhibits. The machine only builds registers of width 8 or more.
- EngineProperties.ImmediateArithmetic: states the `NotANumber` throw of `Engine.ArithmeticCase` for an unloaded operand, not the NaN that JavaScript would store and run on with.
- Engine.Machine.ReadMemory: the `|| 0` is modelled for cells never written. Cells holding NaN cannot arise in the model, since every value is an integer.
- Non-integer and floating-point values are not modelled: opcodes, operands, register and memory values are integers.
- The output device is modelled as a flag plus the sequence of values sent to it. Without an output device the source only writes a diagnostic to the console, so the model records nothing.
- OUT does not await the output device, and IN awaits the input device. Asynchrony and promises are not modelled: each instruction is one atomic step.
- Verbose tracing is not modelled. This covers the `verbose` flag, `logMemoryAndRegisters` (machine.ts:115-128) and the logging inside `fetchDecodeInstruction`. With tracing switched on, that logging would also throw on an unloaded cell.
- `setSP` (machine.ts:80-82) is inlined into `SetSPNum`, its only caller.
- CIR and MDR exist but are never used by any instruction; the model keeps them and proves that they do not change.
- The assembler (`assembler`, `extractLabels`, `tokenizeLine`, `preprocessCode`, which test/interpreter/assembler.test.ts imports from the interpreter module), `vm-worker.ts` and `debounce` from `src/utils.ts` are not part of this model. The model covers only the opcode tables and `lookUpMnemonic` of interpreter.ts.
- The instruction types of `instruction.ts` (`Instruction.Operand`, `Instruction.IntermediateInstruction`, and `Interpreter.InstructionPiece`) are plain data and carry no contract.
