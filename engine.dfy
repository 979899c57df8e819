/**
 * The fetch-decode-execute machine of src/libs/interpreter-core/machine.ts.
 *
 * The first half is a value-level description of one machine state and of
 * what one instruction, a bounded run and the loading of a program do to it.
 * The second half is the machine itself, a class whose methods update its
 * registers, memory and flags in place and are proved to follow that
 * description.
 */
module Engine {
  import opened Wrappers
  import opened Registers
  import opened Interpreter

  /** The status flags carry, negative, overflow and zero, each 0 or 1. */
  datatype Flags = Flags(c: int, n: int, o: int, z: int)

  /** Why an instruction throws instead of completing. */
  datatype Error =
    | NoInputDevice                      // IN with no (more) input
    | InvalidOpcode(opcode: Option<int>) // the throwing default; None stands for the TypeError that
                                         // formatting an unloaded (undefined) opcode cell raises there
    | UndefinedOperand                   // a register set from an unloaded operand cell
    | NotANumber                         // ACC plus or minus an unloaded operand cell

  /**
   * Everything an instruction can read or change. `input` is what the input
   * device will still deliver (empty: no input device); `output` is what the
   * output device has received, and only grows while `hasOutput` holds.
   */
  datatype State = State(
    acc: int, ix: int, cir: int, mar: int, mdr: int, pc: int,
    memory: map<int, int>,
    flags: Flags,
    end: bool,
    input: seq<int>,
    hasOutput: bool,
    output: seq<int>)

  /** A step or run either completes or throws, and either way leaves a state behind. */
  datatype Outcome = Completed(state: State) | Failed(error: Error, state: State)

  /** An opcode and an operand as fetched from two memory cells, None for a cell never written. */
  datatype Fetched = Fetched(opcode: Option<int>, operand: Option<int>)

  /** The state of a freshly constructed machine: everything 0, `end` raised, no devices. */
  function Initial(): State {
    State(0, 0, 0, 0, 0, 0, map[], Flags(0, 0, 0, 0), true, [], false, [])
  }

  /** `readMemory`: the cell's value, 0 for a cell never written. `Machine.ReadMemory` reads the machine's memory with it. */
  function ReadCell(m: map<int, int>, address: int): (r: int)
    ensures address in m ==> r == m[address]
    ensures address !in m ==> r == 0
  {
    if address in m then m[address] else 0
  }

  /** Reading at an operand that is itself an unloaded cell reads no cell and gives 0. */
  function ReadOperand(m: map<int, int>, operand: Option<int>): (r: int)
    ensures operand.None? ==> r == 0
    ensures operand.Some? ==> r == ReadCell(m, operand.value)
  {
    match operand
    case None => 0
    case Some(a) => ReadCell(m, a)
  }

  function Cell(m: map<int, int>, address: int): Option<int> {
    if address in m then Some(m[address]) else None
  }

  /**
   * `fetchDecodeInstruction`: the opcode at `address` and the operand right
   * after it. This is the specification of `Machine.FetchDecodeInstruction`.
   */
  function Fetch(m: map<int, int>, address: int): (f: Fetched)
    ensures f.opcode.Some? <==> address in m
    ensures f.operand.Some? <==> address + 1 in m
    ensures f.opcode.Some? ==> f.opcode.value == m[address]
    ensures f.operand.Some? ==> f.operand.value == m[address + 1]
  {
    Fetched(Cell(m, address), Cell(m, address + 1))
  }

  /** `setSPNum`: zero, negative and carry flags from the sign of a difference. */
  function CompareFlags(f: Flags, diff: int): (r: Flags)
    ensures r.z == 1 <==> diff == 0
    ensures r.n == 1 <==> diff < 0
    ensures r.c == r.n && r.o == f.o
    ensures r.c in {0, 1} && r.z in {0, 1}
  {
    if diff == 0 then f.(c := 0, n := 0, z := 1)
    else if diff < 0 then f.(c := 1, n := 1, z := 0)
    else f.(c := 0, n := 0, z := 0)
  }

  /** The register stores of one width: every register holds its own truncation. */
  ghost predicate Truncated(bits: nat, s: State)
    requires bits >= 2
  {
    Truncate(bits, s.acc) == s.acc && Truncate(bits, s.ix) == s.ix &&
    Truncate(bits, s.cir) == s.cir && Truncate(bits, s.mar) == s.mar &&
    Truncate(bits, s.mdr) == s.mdr && Truncate(bits, s.pc) == s.pc
  }

  /** The program counter moved past a two-cell instruction. */
  function Advance(bits: nat, s: State): State
    requires bits >= 2
  {
    s.(pc := Truncate(bits, s.pc + 2))
  }

  /**
   * What one case of the switch leaves behind: a state whose PC still has to
   * advance, a state after a taken jump, or a throw.
   */
  datatype Effect = Continue(state: State) | Jumped(state: State) | Threw(error: Error)

  predicate IsDataMove(opcode: int) {
    opcode in {LDM, LDD, LDI, LDX, LDR, MOV, STO, END_DATA_MOVE}
  }

  predicate IsInputOutput(opcode: int) {
    opcode in {IN, OUT}
  }

  /** INC and DEC have no case of their own. */
  predicate IsArithmetic(opcode: int) {
    opcode in {ADD_ADDRESS, ADD_IMMEDIATE, SUB_ADDRESS, SUB_IMMEDIATE}
  }

  predicate IsBranching(opcode: int) {
    opcode in {JMP, JPE, JPN, END_BRANCHING}
  }

  predicate IsCompare(opcode: int) {
    opcode in {CMP_ADDRESS, CMP_IMMEDIATE, CMI_ADDRESS}
  }

  /** The opcodes the machine's switch has a case for. */
  predicate Dispatched(opcode: int) {
    IsDataMove(opcode) || IsInputOutput(opcode) || IsArithmetic(opcode) || IsBranching(opcode) || IsCompare(opcode)
  }

  /** Whether the instruction is a jump that is taken in state `s`. */
  predicate Jumps(opcode: int, s: State) {
    opcode == JMP || (opcode == JPE && s.acc == 0) || (opcode == JPN && s.acc != 0)
  }

  function DataMoveCase(bits: nat, s: State, opcode: int, operand: Option<int>): Effect
    requires bits >= 2 && IsDataMove(opcode)
  {
    var m := s.memory;
    if opcode == LDM then
      if operand.None? then Threw(UndefinedOperand)
      else Continue(s.(acc := Truncate(bits, operand.value)))
    else if opcode == LDD then
      Continue(s.(acc := Truncate(bits, ReadOperand(m, operand))))
    else if opcode == LDI then
      Continue(s.(acc := Truncate(bits, ReadCell(m, ReadOperand(m, operand)))))
    else if opcode == LDX then
      Continue(s.(acc := Truncate(bits, ReadCell(m, s.acc + s.ix))))
    else if opcode == LDR then
      if operand.None? then Threw(UndefinedOperand)
      else Continue(s.(ix := Truncate(bits, operand.value)))
    else if opcode == MOV then
      Continue(s.(ix := Truncate(bits, s.acc)))
    else if opcode == STO then
      Continue(s.(memory := m[s.mar := Truncate(bits, s.acc)]))
    else
      Continue(s)
  }

  function InputOutputCase(bits: nat, s: State, opcode: int): Effect
    requires bits >= 2 && IsInputOutput(opcode)
  {
    if opcode == IN then
      if s.input == [] then Threw(NoInputDevice)
      else Continue(s.(acc := Truncate(bits, s.input[0]), input := s.input[1..]))
    else
      Continue(if s.hasOutput then s.(output := s.output + [s.acc]) else s)
  }

  /** The number an arithmetic instruction adds or subtracts; None (NaN) for an unloaded immediate. */
  function Addend(m: map<int, int>, opcode: int, operand: Option<int>): Option<int> {
    if opcode == ADD_ADDRESS || opcode == SUB_ADDRESS then Some(ReadOperand(m, operand)) else operand
  }

  function ArithmeticCase(bits: nat, s: State, opcode: int, operand: Option<int>): Effect
    requires bits >= 2 && IsArithmetic(opcode)
  {
    match Addend(s.memory, opcode, operand)
    case None => Threw(NotANumber)
    case Some(v) =>
      Continue(s.(acc := Truncate(bits, if opcode == ADD_ADDRESS || opcode == ADD_IMMEDIATE then s.acc + v else s.acc - v)))
  }

  function BranchingCase(bits: nat, s: State, opcode: int, operand: Option<int>): Effect
    requires bits >= 2 && IsBranching(opcode)
  {
    if opcode == END_BRANCHING then Continue(s.(end := true))
    else if !Jumps(opcode, s) then Continue(s)
    else if operand.None? then Threw(UndefinedOperand)
    else Jumped(s.(pc := Truncate(bits, operand.value)))
  }

  function CompareCase(s: State, opcode: int, operand: Option<int>): Effect
    requires IsCompare(opcode)
  {
    var m := s.memory;
    if opcode == CMP_ADDRESS then
      Continue(s.(flags := CompareFlags(s.flags, s.acc - ReadOperand(m, operand))))
    else if opcode == CMP_IMMEDIATE then
      // with an unloaded operand the difference is NaN, which sets no flag
      if operand.None? then Continue(s)
      else Continue(s.(flags := CompareFlags(s.flags, s.acc - operand.value)))
    else
      Continue(s.(flags := CompareFlags(s.flags, s.acc - ReadCell(m, ReadOperand(m, operand)))))
  }

  /** The switch of `executeInstruction`; any other opcode reaches the throwing default. */
  function Switch(bits: nat, s: State, opcode: int, operand: Option<int>): Effect
    requires bits >= 2
  {
    if IsDataMove(opcode) then DataMoveCase(bits, s, opcode, operand)
    else if IsInputOutput(opcode) then InputOutputCase(bits, s, opcode)
    else if IsArithmetic(opcode) then ArithmeticCase(bits, s, opcode, operand)
    else if IsBranching(opcode) then BranchingCase(bits, s, opcode, operand)
    else if IsCompare(opcode) then CompareCase(s, opcode, operand)
    else Threw(InvalidOpcode(Some(opcode)))
  }

  /** One instruction on a state whose `end` is already lowered: the switch, then PC + 2 unless it jumped. */
  function Dispatch(bits: nat, s: State, opcode: int, operand: Option<int>): Outcome
    requires bits >= 2
  {
    match Switch(bits, s, opcode, operand)
    case Continue(t) => Completed(Advance(bits, t))
    case Jumped(t) => Completed(t)
    case Threw(e) => Failed(e, s)
  }

  /** `executeInstruction(address)`: lower `end`, fetch, dispatch. */
  function StepAt(bits: nat, s: State, address: int): Outcome
    requires bits >= 2
  {
    var s0 := s.(end := false);
    var f := Fetch(s.memory, address);
    if f.opcode.None? then Failed(InvalidOpcode(None), s0)
    else Dispatch(bits, s0, f.opcode.value, f.operand)
  }

  lemma StepAtCases(bits: nat, s: State, address: int)
    requires bits >= 2
    ensures address !in s.memory ==> StepAt(bits, s, address) == Failed(InvalidOpcode(None), s.(end := false))
    ensures address in s.memory ==>
      StepAt(bits, s, address) == Dispatch(bits, s.(end := false), s.memory[address], Fetch(s.memory, address).operand)
  {
  }

  /**
   * The shape of the second loop of `execute`, for any step function: at most
   * `k` steps, stopping at a throw or once `end` is raised.
   */
  function Steps(step: State -> Outcome, s: State, k: nat): Outcome
    decreases k
  {
    if k == 0 then Completed(s)
    else
      match step(s)
      case Failed(e, t) => Failed(e, t)
      case Completed(t) => if t.end then Completed(t) else Steps(step, t, k - 1)
  }

  /** One turn of that loop: the instruction PC points at. */
  function Step(bits: nat): State -> Outcome
    requires bits >= 2
  {
    (s: State) => StepAt(bits, s, s.pc)
  }

  /** The second loop of `execute`. */
  function Run(bits: nat, s: State, k: nat): Outcome
    requires bits >= 2
  {
    Steps(Step(bits), s, k)
  }

  /** One turn of the run loop. */
  lemma RunStep(bits: nat, s: State, k: nat)
    requires bits >= 2 && k >= 1
    ensures var o := StepAt(bits, s, s.pc);
      Run(bits, s, k) == if o.Failed? || o.state.end then o else Run(bits, o.state, k - 1)
  {
    assert Step(bits)(s) == StepAt(bits, s, s.pc);
  }

  /** The first loop of `execute` after `n` turns. */
  function Load(m: map<int, int>, program: seq<InstructionPiece>, n: nat): map<int, int>
    requires n <= |program|
  {
    if n == 0 then m
    else Load(m, program, n - 1)[2 * (n - 1) := program[n - 1].opcode][2 * (n - 1) + 1 := program[n - 1].operand]
  }

  /**
   * After `n` turns instruction i < n is in cells 2i (opcode) and 2i + 1
   * (operand), as given, and every other cell holds what it held before.
   */
  lemma {:induction false} LoadCells(m: map<int, int>, program: seq<InstructionPiece>, n: nat)
    requires n <= |program|
    ensures forall i :: 0 <= i < n ==> 2 * i in Load(m, program, n) && Load(m, program, n)[2 * i] == program[i].opcode
    ensures forall i :: 0 <= i < n ==> 2 * i + 1 in Load(m, program, n) && Load(m, program, n)[2 * i + 1] == program[i].operand
    ensures forall a :: (a < 0 || a >= 2 * n) ==> (a in Load(m, program, n) <==> a in m)
    ensures forall a :: (a < 0 || a >= 2 * n) && a in m ==> Load(m, program, n)[a] == m[a]
  {
    if n > 0 {
      LoadCells(m, program, n - 1);
    }
  }

  /** What `execute` sets up before its run: the program loaded and PC at 0. */
  function Boot(s: State, program: seq<InstructionPiece>): State {
    s.(memory := Load(s.memory, program, |program|), pc := 0)
  }

  /** `execute(program)`. */
  function ExecuteProgram(bits: nat, s: State, program: seq<InstructionPiece>): Outcome
    requires bits >= 2
  {
    Run(bits, Boot(s, program), |program|)
  }

  /**
   * A state `now` and the pair (error, jumped) report the effect `e` of a case
   * run on `before`: a throw changes nothing, otherwise `now` is the new state.
   */
  ghost predicate Reports(now: State, before: State, e: Effect, error: Option<Error>, jumped: bool) {
    match e
    case Threw(err) => error == Some(err) && now == before
    case Continue(t) => error == None && !jumped && now == t
    case Jumped(t) => error == None && jumped && now == t
  }

  /** What is left of `executeInstruction` once its switch has run: the throw, or the PC update. */
  lemma DispatchReported(bits: nat, s: State, opcode: int, operand: Option<int>, now: State, error: Option<Error>, jumped: bool)
    requires bits >= 2 && Reports(now, s, Switch(bits, s, opcode, operand), error, jumped)
    ensures error.Some? ==> now == s && Dispatch(bits, s, opcode, operand) == Failed(error.value, s)
    ensures error.None? ==> Dispatch(bits, s, opcode, operand) == Completed(if jumped then now else Advance(bits, now))
  {
  }

  /** The two devices `addDevice` can attach. */
  datatype Device = InputDevice(values: seq<int>) | OutputDevice

  const WIDTH_ERROR := "Bits must be greater than 8"

  /** The machine: a bank of six registers, a sparse memory, status flags and devices. */
  class Machine {
    const bits: nat
    const acc: Register
    const ix: Register
    const cir: Register
    const mar: Register
    const mdr: Register
    const pc: Register
    var memory: map<int, int>
    var end: bool
    var sp: Flags
    var input: seq<int>
    var hasOutput: bool
    var output: seq<int>

    /** Each register has its own name, the machine's width, and a truncated value. */
    ghost predicate Valid()
      reads this, acc, ix, cir, mar, mdr, pc
    {
      bits >= 8 &&
      acc.kind == ACC && ix.kind == IX && cir.kind == CIR &&
      mar.kind == MAR && mdr.kind == MDR && pc.kind == PC &&
      acc.bits == bits && ix.bits == bits && cir.bits == bits &&
      mar.bits == bits && mdr.bits == bits && pc.bits == bits &&
      acc.Valid() && ix.Valid() && cir.Valid() && mar.Valid() && mdr.Valid() && pc.Valid()
    }

    /** The machine's state as a value. */
    ghost function Abs(): State
      reads this, acc, ix, cir, mar, mdr, pc
    {
      State(acc.value, ix.value, cir.value, mar.value, mdr.value, pc.value,
            memory, sp, end, input, hasOutput, output)
    }

    constructor (bits: nat)
      requires bits >= 8
      ensures Valid() && this.bits == bits && Abs() == Initial()
      ensures fresh(acc) && fresh(ix) && fresh(cir) && fresh(mar) && fresh(mdr) && fresh(pc)
    {
      this.bits := bits;
      acc := new Register(ACC, bits);
      ix := new Register(IX, bits);
      cir := new Register(CIR, bits);
      mar := new Register(MAR, bits);
      mdr := new Register(MDR, bits);
      pc := new Register(PC, bits);
      memory := map[];
      end := true;
      sp := Flags(0, 0, 0, 0);
      input := [];
      hasOutput := false;
      output := [];
    }

    /** `new machine(bits)`, including the throw for a width below 8. */
    static method Create(bits: nat) returns (r: Result<Machine, string>)
      ensures r.Err? <==> bits < 8
      ensures r.Err? ==> r.error == WIDTH_ERROR
      ensures r.Ok? ==> fresh(r.value) && r.value.Valid() && r.value.bits == bits && r.value.Abs() == Initial()
      ensures r.Ok? ==> fresh(r.value.acc) && fresh(r.value.ix) && fresh(r.value.cir)
      ensures r.Ok? ==> fresh(r.value.mar) && fresh(r.value.mdr) && fresh(r.value.pc)
    {
      if bits < 8 {
        return Err(WIDTH_ERROR);
      }
      var m := new Machine(bits);
      return Ok(m);
    }

    method AddDevice(device: Device)
      modifies this
      ensures device.InputDevice? ==> Abs() == old(Abs()).(input := device.values)
      ensures device.OutputDevice? ==> Abs() == old(Abs()).(hasOutput := true)
    {
      match device
      case InputDevice(values) => input := values;
      case OutputDevice => hasOutput := true;
    }

    /** `setMemory`: the cell takes the value truncated to the machine's width. */
    method SetMemory(address: int, value: int)
      requires Valid()
      modifies this
      ensures Valid()
      ensures Abs() == old(Abs()).(memory := old(memory)[address := Truncate(bits, value)])
    {
      var v := Truncate(bits, value);
      memory := memory[address := v];
    }

    function ReadMemory(address: int): (r: int)
      reads this
      ensures address in memory ==> r == memory[address]
      ensures address !in memory ==> r == 0
    {
      ReadCell(memory, address)
    }

    method SetSPNum(val: int)
      modifies this
      ensures Abs() == old(Abs()).(flags := CompareFlags(old(sp), val))
    {
      if val == 0 {
        sp := sp.(c := 0, n := 0, z := 1);
      } else if val < 0 {
        sp := sp.(c := 1, n := 1, z := 0);
      } else {
        sp := sp.(c := 0, n := 0, z := 0);
      }
    }

    /** Opcode at `address`, operand at `address + 1`, neither truncated. */
    method StoreInstructionInMemory(address: int, instruction: InstructionPiece)
      modifies this
      ensures Abs() == old(Abs()).(memory := old(memory)[address := instruction.opcode][address + 1 := instruction.operand])
    {
      memory := memory[address := instruction.opcode];
      memory := memory[address + 1 := instruction.operand];
    }

    /** The decode, read from the machine's memory; `Fetch` is its specification. */
    method FetchDecodeInstruction(address: int) returns (decoded: Fetched)
      ensures decoded == Fetch(memory, address)
    {
      var opcode := if address in memory then Some(memory[address]) else None;
      var operand := if address + 1 in memory then Some(memory[address + 1]) else None;
      decoded := Fetched(opcode, operand);
    }

    /** `registers.ACC.setVal(v)` seen from the machine: only ACC changes. */
    method SetAcc(v: int)
      requires Valid()
      modifies acc
      ensures Valid() && Abs() == old(Abs()).(acc := Truncate(bits, v))
    {
      acc.SetVal(v);
    }

    /** `registers.IX.setVal(v)` seen from the machine. */
    method SetIx(v: int)
      requires Valid()
      modifies ix
      ensures Valid() && Abs() == old(Abs()).(ix := Truncate(bits, v))
    {
      ix.SetVal(v);
    }

    /** `registers.PC.setVal(v)` seen from the machine. */
    method SetPc(v: int)
      requires Valid()
      modifies pc
      ensures Valid() && Abs() == old(Abs()).(pc := Truncate(bits, v))
    {
      pc.SetVal(v);
    }

    /** The machine's state after one case of the switch, given the state before it. */
    ghost predicate Performed(before: State, e: Effect, error: Option<Error>, jumped: bool)
      reads this, acc, ix, cir, mar, mdr, pc
    {
      Reports(Abs(), before, e, error, jumped)
    }

    method ExecuteDataMove(opcode: int, operand: Option<int>) returns (error: Option<Error>, jumped: bool)
      requires Valid() && IsDataMove(opcode)
      modifies this, acc, ix
      ensures Valid()
      ensures Performed(old(Abs()), DataMoveCase(bits, old(Abs()), opcode, operand), error, jumped)
    {
      error, jumped := None, false;
      if opcode == LDM {
        if operand.None? { return Some(UndefinedOperand), false; }
        SetAcc(operand.value);
      } else if opcode == LDD {
        SetAcc(ReadOperand(memory, operand));
      } else if opcode == LDI {
        var location := ReadOperand(memory, operand);
        SetAcc(ReadMemory(location));
      } else if opcode == LDX {
        var calculatedAddress := acc.GetVal() + ix.GetVal();
        SetAcc(ReadMemory(calculatedAddress));
      } else if opcode == LDR {
        if operand.None? { return Some(UndefinedOperand), false; }
        SetIx(operand.value);
      } else if opcode == MOV {
        SetIx(acc.GetVal());
      } else if opcode == STO {
        SetMemory(mar.GetVal(), acc.GetVal());
      }
    }

    method ExecuteInputOutput(opcode: int) returns (error: Option<Error>, jumped: bool)
      requires Valid() && IsInputOutput(opcode)
      modifies this, acc
      ensures Valid()
      ensures Performed(old(Abs()), InputOutputCase(bits, old(Abs()), opcode), error, jumped)
    {
      error, jumped := None, false;
      if opcode == IN {
        if input == [] { return Some(NoInputDevice), false; }
        var value := input[0];
        input := input[1..];
        SetAcc(value);
      } else if hasOutput {
        output := output + [acc.GetVal()];
      }
    }

    method ExecuteArithmetic(opcode: int, operand: Option<int>) returns (error: Option<Error>, jumped: bool)
      requires Valid() && IsArithmetic(opcode)
      modifies acc
      ensures Valid()
      ensures Performed(old(Abs()), ArithmeticCase(bits, old(Abs()), opcode, operand), error, jumped)
    {
      error, jumped := None, false;
      var value := Addend(memory, opcode, operand);
      if value.None? {
        return Some(NotANumber), false;
      }
      ghost var s := Abs();
      var sum := if opcode == ADD_ADDRESS || opcode == ADD_IMMEDIATE then acc.GetVal() + value.value else acc.GetVal() - value.value;
      assert ArithmeticCase(bits, s, opcode, operand) == Continue(s.(acc := Truncate(bits, sum)));
      SetAcc(sum);
    }

    method ExecuteBranching(opcode: int, operand: Option<int>) returns (error: Option<Error>, jumped: bool)
      requires Valid() && IsBranching(opcode)
      modifies this, pc
      ensures Valid()
      ensures Performed(old(Abs()), BranchingCase(bits, old(Abs()), opcode, operand), error, jumped)
    {
      error, jumped := None, false;
      if opcode == END_BRANCHING {
        end := true;
      } else if opcode == JMP || (opcode == JPE && acc.GetVal() == 0) || (opcode == JPN && acc.GetVal() != 0) {
        if operand.None? { return Some(UndefinedOperand), false; }
        jumped := true;
        SetPc(operand.value);
      }
    }

    method ExecuteCompare(opcode: int, operand: Option<int>) returns (error: Option<Error>, jumped: bool)
      requires Valid() && IsCompare(opcode)
      modifies this
      ensures Valid()
      ensures Performed(old(Abs()), CompareCase(old(Abs()), opcode, operand), error, jumped)
    {
      error, jumped := None, false;
      if opcode == CMP_ADDRESS {
        SetSPNum(acc.GetVal() - ReadOperand(memory, operand));
      } else if opcode == CMP_IMMEDIATE {
        if operand.Some? {
          SetSPNum(acc.GetVal() - operand.value);
        }
      } else {
        SetSPNum(acc.GetVal() - ReadMemory(ReadOperand(memory, operand)));
      }
    }

    /** The switch of `executeInstruction`. */
    method Perform(opcode: int, operand: Option<int>) returns (error: Option<Error>, jumped: bool)
      requires Valid()
      modifies this, acc, ix, pc
      ensures Valid()
      ensures Performed(old(Abs()), Switch(bits, old(Abs()), opcode, operand), error, jumped)
    {
      if IsDataMove(opcode) {
        error, jumped := ExecuteDataMove(opcode, operand);
      } else if IsInputOutput(opcode) {
        error, jumped := ExecuteInputOutput(opcode);
      } else if IsArithmetic(opcode) {
        error, jumped := ExecuteArithmetic(opcode, operand);
      } else if IsBranching(opcode) {
        error, jumped := ExecuteBranching(opcode, operand);
      } else if IsCompare(opcode) {
        error, jumped := ExecuteCompare(opcode, operand);
      } else {
        error, jumped := Some(InvalidOpcode(Some(opcode))), false;
      }
    }

    /** The part of `executeInstruction` after a successful fetch: the switch, then the PC update. */
    method ExecuteDecoded(opcode: int, operand: Option<int>) returns (error: Option<Error>)
      requires Valid()
      modifies this, acc, ix, pc
      ensures Valid()
      ensures var o := Dispatch(bits, old(Abs()), opcode, operand);
        Abs() == o.state && error == (if o.Failed? then Some(o.error) else None)
    {
      var flagJumped;
      error, flagJumped := Perform(opcode, operand);
      DispatchReported(bits, old(Abs()), opcode, operand, Abs(), error, flagJumped);
      if error.Some? {
        return;
      }
      if !flagJumped {
        SetPc(pc.GetVal() + 2);
      }
    }

    /** `executeInstruction(address)`; a thrown error comes back as `Some`. */
    method ExecuteInstruction(address: int) returns (error: Option<Error>)
      requires Valid()
      modifies this, acc, ix, pc
      ensures Valid()
      ensures address !in old(memory) ==> Abs() == old(Abs()).(end := false) && error == Some(InvalidOpcode(None))
      ensures address in old(memory) ==>
        var o := Dispatch(bits, old(Abs()).(end := false), old(memory)[address], Fetch(old(memory), address).operand);
        Abs() == o.state && error == (if o.Failed? then Some(o.error) else None)
    {
      end := false;
      var instruction := FetchDecodeInstruction(address);
      if instruction.opcode.None? {
        return Some(InvalidOpcode(None));
      }
      error := ExecuteDecoded(instruction.opcode.value, instruction.operand);
    }

    /** The first loop of `execute` and the PC reset after it. */
    method LoadProgram(program: seq<InstructionPiece>)
      requires Valid()
      modifies this, pc
      ensures Valid()
      ensures Abs() == Boot(old(Abs()), program)
    {
      ghost var s := Abs();
      for i := 0 to |program|
        invariant Valid()
        invariant memory == Load(s.memory, program, i)
        invariant Abs() == s.(memory := memory)
      {
        StoreInstructionInMemory(2 * i, program[i]);
      }
      assert Abs() == s.(memory := Load(s.memory, program, |program|));
      pc.SetVal(0);
    }

    /** `execute(program)`: load, reset PC, then run at most |program| steps. */
    method Execute(program: seq<InstructionPiece>) returns (error: Option<Error>)
      requires Valid()
      modifies this, acc, ix, pc
      ensures Valid()
      ensures var o := ExecuteProgram(bits, old(Abs()), program);
        Abs() == o.state && error == (if o.Failed? then Some(o.error) else None)
    {
      LoadProgram(program);
      ghost var booted := Abs();
      var i := 0;
      error := None;
      while i < |program|
        invariant 0 <= i <= |program|
        invariant Valid() && error == None
        invariant Run(bits, booted, |program|) == Run(bits, Abs(), |program| - i)
      {
        ghost var before := Abs();
        error := ExecuteInstruction(pc.GetVal());
        StepAtCases(bits, before, before.pc);
        RunStep(bits, before, |program| - i);
        if error.Some? {
          return;
        }
        if end {
          return;
        }
        i := i + 1;
      }
    }
  }
}
