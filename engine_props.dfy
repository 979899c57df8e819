/**
 * What the machine of src/libs/interpreter-core/machine.ts guarantees about
 * one instruction and about a whole run, stated over the step function of
 * the Engine module.
 */
module EngineProperties {
  import opened Wrappers
  import opened Registers
  import opened Interpreter
  import opened Engine

  /** The opcode and operand cells an instruction at `address` decodes. */
  function OpcodeAt(s: State, address: int): Option<int> {
    Fetch(s.memory, address).opcode
  }

  function OperandAt(s: State, address: int): Option<int> {
    Fetch(s.memory, address).operand
  }

  /** Only the branching END (0x33) raises `end`; every instruction starts by lowering it. */
  lemma EndOnlyAtBranchingEnd(bits: nat, s: State, address: int)
    requires bits >= 2
    ensures StepAt(bits, s, address).state.end <==> OpcodeAt(s, address) == Some(END_BRANCHING)
    ensures StepAt(bits, s, address).state.end ==> StepAt(bits, s, address).Completed?
  {
  }

  /** The data-move END (0x07) does nothing but move PC on. */
  lemma DataMoveEndIsNoOp(bits: nat, s: State, address: int)
    requires bits >= 2 && OpcodeAt(s, address) == Some(END_DATA_MOVE)
    ensures StepAt(bits, s, address) == Completed(s.(end := false, pc := Truncate(bits, s.pc + 2)))
  {
  }

  /**
   * A throw changes nothing but the lowered `end`: no register, cell, flag or
   * device sees the failing instruction, and PC stays where it was.
   */
  lemma FailureChangesOnlyEnd(bits: nat, s: State, address: int)
    requires bits >= 2 && StepAt(bits, s, address).Failed?
    ensures StepAt(bits, s, address).state == s.(end := false)
  {
  }

  /** Exactly the opcodes without a case, and unloaded cells, are invalid. */
  lemma InvalidOpcodeIff(bits: nat, s: State, address: int)
    requires bits >= 2
    ensures StepAt(bits, s, address).Failed? && StepAt(bits, s, address).error.InvalidOpcode? <==>
            (OpcodeAt(s, address).None? || !Dispatched(OpcodeAt(s, address).value))
    ensures StepAt(bits, s, address).Failed? && StepAt(bits, s, address).error.InvalidOpcode? ==>
            StepAt(bits, s, address).error.opcode == OpcodeAt(s, address)
  {
  }

  /** INC and DEC are in the arithmetic table but reach the throwing default. */
  lemma IncDecThrow(bits: nat, s: State, address: int)
    requires bits >= 2 && OpcodeAt(s, address) in {Some(INC), Some(DEC)}
    ensures StepAt(bits, s, address) == Failed(InvalidOpcode(OpcodeAt(s, address)), s.(end := false))
  {
  }

  /**
   * PC after a completed instruction: the operand, truncated, after a taken
   * jump; otherwise PC + 2, truncated. Whether a jump is taken depends on the
   * opcode and on ACC alone.
   */
  lemma PcUpdate(bits: nat, s: State, address: int)
    requires bits >= 2 && StepAt(bits, s, address).Completed?
    ensures OpcodeAt(s, address).Some?
    ensures var t := StepAt(bits, s, address).state;
      if Jumps(OpcodeAt(s, address).value, s)
      then OperandAt(s, address).Some? && t.pc == Truncate(bits, OperandAt(s, address).value)
      else t.pc == Truncate(bits, s.pc + 2)
  {
    StepAtCases(bits, s, address);
    if address in s.memory {
      var s0 := s.(end := false);
      var opcode, operand := s.memory[address], OperandAt(s, address);
      SwitchPc(bits, s0, opcode, operand);
      assert Jumps(opcode, s0) == Jumps(opcode, s);
    }
  }

  /** Which cases of the switch jump, and where PC is left. */
  lemma SwitchPc(bits: nat, s: State, opcode: int, operand: Option<int>)
    requires bits >= 2
    ensures var e := Switch(bits, s, opcode, operand);
      (e.Jumped? ==> Jumps(opcode, s) && operand.Some? && e.state.pc == Truncate(bits, operand.value)) &&
      (e.Continue? ==> !Jumps(opcode, s) && e.state.pc == s.pc)
  {
    if !IsBranching(opcode) {
      assert !Jumps(opcode, s);
    }
  }

  lemma BranchingCaseIgnoresFlags(bits: nat, s: State, opcode: int, operand: Option<int>, f: Flags)
    requires bits >= 2 && IsBranching(opcode)
    ensures var e, e' := BranchingCase(bits, s, opcode, operand), BranchingCase(bits, s.(flags := f), opcode, operand);
      e'.Threw? == e.Threw? && e'.Jumped? == e.Jumped? && (!e.Threw? ==> e'.state == e.state.(flags := f))
  {
  }

  /** A branch neither reads nor writes the status flags. */
  lemma BranchIgnoresFlags(bits: nat, s: State, address: int, f: Flags)
    requires bits >= 2 && OpcodeAt(s, address).Some? && IsBranching(OpcodeAt(s, address).value)
    ensures StepAt(bits, s.(flags := f), address).Failed? == StepAt(bits, s, address).Failed?
    ensures StepAt(bits, s.(flags := f), address).state == StepAt(bits, s, address).state.(flags := f)
  {
    var s0 := s.(end := false);
    BranchingCaseIgnoresFlags(bits, s0, OpcodeAt(s, address).value, OperandAt(s, address), f);
    assert s.(flags := f).(end := false) == s0.(flags := f);
  }

  /** The value a comparison subtracts from ACC; None for an immediate operand never loaded. */
  function ComparedValue(s: State, opcode: int, operand: Option<int>): Option<int>
    requires IsCompare(opcode)
  {
    if opcode == CMP_ADDRESS then Some(ReadOperand(s.memory, operand))
    else if opcode == CMP_IMMEDIATE then operand
    else Some(ReadCell(s.memory, ReadOperand(s.memory, operand)))
  }

  /**
   * A comparison changes only the flags (and PC): C and N become 1 if ACC is
   * below the value and 0 otherwise, Z becomes 1 if ACC equals it and 0
   * otherwise, and O is left alone.
   */
  lemma CompareSetsFlags(bits: nat, s: State, address: int)
    requires bits >= 2 && OpcodeAt(s, address).Some? && IsCompare(OpcodeAt(s, address).value)
    ensures var o := StepAt(bits, s, address);
      var v := ComparedValue(s, OpcodeAt(s, address).value, OperandAt(s, address));
      o.Completed? &&
      o.state == s.(end := false, pc := Truncate(bits, s.pc + 2), flags := o.state.flags) &&
      (v.None? ==> o.state.flags == s.flags) &&
      (v.Some? ==> o.state.flags == Flags(if s.acc < v.value then 1 else 0, if s.acc < v.value then 1 else 0,
                                          s.flags.o, if s.acc == v.value then 1 else 0))
  {
  }

  /**
   * The immediate loads as whole next states: LDM and LDR set ACC and IX to
   * the operand, truncated, and advance PC; with an unloaded operand they throw.
   */
  lemma ImmediateLoads(bits: nat, s: State, address: int)
    requires bits >= 2 && OpcodeAt(s, address) in {Some(LDM), Some(LDR)}
    ensures var op, operand := OpcodeAt(s, address).value, OperandAt(s, address);
      var s0, pc := s.(end := false), Truncate(bits, s.pc + 2);
      (operand.None? ==> StepAt(bits, s, address) == Failed(UndefinedOperand, s0)) &&
      (op == LDM && operand.Some? ==> StepAt(bits, s, address) == Completed(s0.(pc := pc, acc := Truncate(bits, operand.value)))) &&
      (op == LDR && operand.Some? ==> StepAt(bits, s, address) == Completed(s0.(pc := pc, ix := Truncate(bits, operand.value))))
  {
    StepAtCases(bits, s, address);
  }

  /**
   * The other loads by addressing mode, as whole next states: direct, indirect
   * and indexed loads into ACC, and MOV into IX, each truncated, with PC
   * advanced; unloaded cells read as 0.
   */
  lemma LoadModes(bits: nat, s: State, address: int)
    requires bits >= 2 && OpcodeAt(s, address) in {Some(LDD), Some(LDI), Some(LDX), Some(MOV)}
    ensures var op, operand := OpcodeAt(s, address).value, OperandAt(s, address);
      var s0, pc := s.(end := false), Truncate(bits, s.pc + 2);
      var n := ReadOperand(s.memory, operand);
      (op == LDD ==> StepAt(bits, s, address) == Completed(s0.(pc := pc, acc := Truncate(bits, n)))) &&
      (op == LDI ==> StepAt(bits, s, address) == Completed(s0.(pc := pc, acc := Truncate(bits, ReadCell(s.memory, n))))) &&
      (op == LDX ==> StepAt(bits, s, address) == Completed(s0.(pc := pc, acc := Truncate(bits, ReadCell(s.memory, s.acc + s.ix))))) &&
      (op == MOV ==> StepAt(bits, s, address) == Completed(s0.(pc := pc, ix := Truncate(bits, s.acc))))
  {
    StepAtCases(bits, s, address);
  }

  /** STO ignores its operand: it writes ACC, truncated, at the address MAR holds. */
  lemma StoreWritesAtMar(bits: nat, s: State, address: int)
    requires bits >= 2 && OpcodeAt(s, address) == Some(STO)
    ensures StepAt(bits, s, address) ==
      Completed(s.(end := false, pc := Truncate(bits, s.pc + 2), memory := s.memory[s.mar := Truncate(bits, s.acc)]))
  {
  }

  /**
   * The arithmetic cases with an address operand as whole next states: ACC
   * plus or minus the cell the operand names, truncated, with PC advanced.
   */
  lemma AddressArithmetic(bits: nat, s: State, address: int)
    requires bits >= 2 && OpcodeAt(s, address) in {Some(ADD_ADDRESS), Some(SUB_ADDRESS)}
    ensures var op, n := OpcodeAt(s, address).value, ReadOperand(s.memory, OperandAt(s, address));
      var s0, pc := s.(end := false), Truncate(bits, s.pc + 2);
      (op == ADD_ADDRESS ==> StepAt(bits, s, address) == Completed(s0.(pc := pc, acc := Truncate(bits, s.acc + n)))) &&
      (op == SUB_ADDRESS ==> StepAt(bits, s, address) == Completed(s0.(pc := pc, acc := Truncate(bits, s.acc - n))))
  {
    StepAtCases(bits, s, address);
    var s0, op, operand := s.(end := false), OpcodeAt(s, address).value, OperandAt(s, address);
    assert Switch(bits, s0, op, operand) == ArithmeticCase(bits, s0, op, operand);
    assert Addend(s0.memory, op, operand) == Some(ReadOperand(s.memory, operand));
  }

  /**
   * The arithmetic cases with an immediate operand as whole next states: ACC
   * plus or minus the operand, truncated, with PC advanced; an unloaded
   * operand throws NotANumber.
   */
  lemma ImmediateArithmetic(bits: nat, s: State, address: int)
    requires bits >= 2 && OpcodeAt(s, address) in {Some(ADD_IMMEDIATE), Some(SUB_IMMEDIATE)}
    ensures var op, operand := OpcodeAt(s, address).value, OperandAt(s, address);
      var s0, pc := s.(end := false), Truncate(bits, s.pc + 2);
      (operand.None? ==> StepAt(bits, s, address) == Failed(NotANumber, s0)) &&
      (op == ADD_IMMEDIATE && operand.Some? ==>
         StepAt(bits, s, address) == Completed(s0.(pc := pc, acc := Truncate(bits, s.acc + operand.value)))) &&
      (op == SUB_IMMEDIATE && operand.Some? ==>
         StepAt(bits, s, address) == Completed(s0.(pc := pc, acc := Truncate(bits, s.acc - operand.value))))
  {
    StepAtCases(bits, s, address);
  }

  /** Reading memory after writing it: the written cell gives the value written, every other cell is as before. */
  lemma ReadAfterWrite(m: map<int, int>, a: int, v: int, b: int)
    ensures ReadCell(m[a := v], b) == if b == a then v else ReadCell(m, b)
    ensures ReadCell(map[], b) == 0
  {
  }

  /**
   * `setMemory` followed by `readMemory`: ACC stored by STO and loaded back by
   * LDD from the address MAR holds comes back as it was, since a stored value
   * is its own truncation.
   */
  lemma StoreThenLoad(bits: nat, s: State)
    requires bits >= 2 && OpcodeAt(s, s.pc) == Some(STO)
    ensures var t := StepAt(bits, s, s.pc).state;
      OpcodeAt(t, t.pc) == Some(LDD) && OperandAt(t, t.pc) == Some(s.mar) ==>
        StepAt(bits, t, t.pc) == Completed(t.(end := false, pc := Truncate(bits, t.pc + 2), acc := Truncate(bits, s.acc)))
  {
    StoreWritesAtMar(bits, s, s.pc);
    var t := StepAt(bits, s, s.pc).state;
    if OpcodeAt(t, t.pc) == Some(LDD) && OperandAt(t, t.pc) == Some(s.mar) {
      LoadModes(bits, t, t.pc);
      ReadAfterWrite(s.memory, s.mar, Truncate(bits, s.acc), s.mar);
      TruncateIdempotent(bits, s.acc);
    }
  }

  /** IN consumes one input value into ACC, or throws when there is none. */
  lemma InputConsumes(bits: nat, s: State, address: int)
    requires bits >= 2 && OpcodeAt(s, address) == Some(IN)
    ensures s.input == [] ==> StepAt(bits, s, address) == Failed(NoInputDevice, s.(end := false))
    ensures s.input != [] ==>
      StepAt(bits, s, address) ==
      Completed(s.(end := false, pc := Truncate(bits, s.pc + 2), acc := Truncate(bits, s.input[0]), input := s.input[1..]))
  {
  }

  /** Only OUT produces output, exactly ACC, and only with an output device. */
  lemma OutputOnlyFromOut(bits: nat, s: State, address: int)
    requires bits >= 2
    ensures var t := StepAt(bits, s, address).state;
      t.output == if OpcodeAt(s, address) == Some(OUT) && s.hasOutput then s.output + [s.acc] else s.output
    ensures StepAt(bits, s, address).state.hasOutput == s.hasOutput
  {
  }

  /** CIR, MAR and MDR are never written by any instruction. */
  lemma StepKeepsUnusedRegisters(bits: nat, s: State, address: int)
    requires bits >= 2
    ensures var t := StepAt(bits, s, address).state;
      t.cir == s.cir && t.mar == s.mar && t.mdr == s.mdr
  {
  }

  /** One case of the switch keeps every register truncated. */
  lemma SwitchKeepsTruncated(bits: nat, s: State, opcode: int, operand: Option<int>)
    requires bits >= 2 && Truncated(bits, s)
    ensures !Switch(bits, s, opcode, operand).Threw? ==> Truncated(bits, Switch(bits, s, opcode, operand).state)
  {
    var e := Switch(bits, s, opcode, operand);
    if IsDataMove(opcode) {
      assert e == DataMoveCase(bits, s, opcode, operand);
    } else if IsInputOutput(opcode) {
      assert e == InputOutputCase(bits, s, opcode);
    } else if IsArithmetic(opcode) {
      assert e == ArithmeticCase(bits, s, opcode, operand);
    } else if IsBranching(opcode) {
      assert e == BranchingCase(bits, s, opcode, operand);
    } else if IsCompare(opcode) {
      assert e == CompareCase(s, opcode, operand);
    }
  }

  /** Every register keeps holding a stored (truncated) value. */
  lemma StepKeepsTruncated(bits: nat, s: State, address: int)
    requires bits >= 2 && Truncated(bits, s)
    ensures Truncated(bits, StepAt(bits, s, address).state)
  {
    var s0 := s.(end := false);
    var op := OpcodeAt(s, address);
    if op.Some? {
      SwitchKeepsTruncated(bits, s0, op.value, OperandAt(s, address));
      var e := Switch(bits, s0, op.value, OperandAt(s, address));
      if e.Continue? {
        TruncateIdempotent(bits, e.state.pc + 2);
      }
    }
  }

  // Facts about the run loop that hold whatever its step function is.

  /** What every step preserves, a run preserves, whether it completes or throws. */
  lemma {:induction false} StepsInvariant(step: State -> Outcome, inv: State -> bool, s: State, k: nat)
    requires inv(s)
    requires forall t :: inv(t) ==> inv(step(t).state)
    ensures inv(Steps(step, s, k).state)
    decreases k
  {
    if k > 0 && step(s).Completed? && !step(s).state.end {
      StepsInvariant(step, inv, step(s).state, k - 1);
    }
  }

  lemma {:induction false} StepsContinue(step: State -> Outcome, s: State, k: nat, j: nat)
    requires Steps(step, s, k).Completed? && !Steps(step, s, k).state.end
    ensures Steps(step, s, k + j) == Steps(step, Steps(step, s, k).state, j)
    decreases k
  {
    if k > 0 {
      StepsContinue(step, step(s).state, k - 1, j);
    }
  }

  lemma {:induction false} StepsStopAtEnd(step: State -> Outcome, s: State, k: nat, j: nat)
    requires k >= 1 && Steps(step, s, k).Completed? && Steps(step, s, k).state.end
    ensures Steps(step, s, k + j) == Steps(step, s, k)
    decreases k
  {
    if !step(s).state.end {
      StepsStopAtEnd(step, step(s).state, k - 1, j);
    }
  }

  lemma {:induction false} StepsStopAtThrow(step: State -> Outcome, s: State, k: nat, j: nat)
    requires Steps(step, s, k).Failed?
    ensures Steps(step, s, k + j) == Steps(step, s, k)
    decreases k
  {
    if step(s).Completed? && !step(s).state.end {
      StepsStopAtThrow(step, step(s).state, k - 1, j);
    }
  }

  /** A run of the machine never writes CIR, MAR or MDR. */
  lemma RunKeepsUnusedRegisters(bits: nat, s: State, k: nat)
    requires bits >= 2
    ensures var t := Run(bits, s, k).state;
      t.cir == s.cir && t.mar == s.mar && t.mdr == s.mdr
  {
    var inv := (t: State) => t.cir == s.cir && t.mar == s.mar && t.mdr == s.mdr;
    forall t | inv(t) ensures inv(Step(bits)(t).state) {
      StepKeepsUnusedRegisters(bits, t, t.pc);
    }
    StepsInvariant(Step(bits), inv, s, k);
  }

  /** A run keeps every register truncated to the machine's width. */
  lemma RunKeepsTruncated(bits: nat, s: State, k: nat)
    requires bits >= 2 && Truncated(bits, s)
    ensures Truncated(bits, Run(bits, s, k).state)
  {
    var inv := (t: State) => Truncated(bits, t);
    forall t | inv(t) ensures inv(Step(bits)(t).state) {
      StepKeepsTruncated(bits, t, t.pc);
    }
    StepsInvariant(Step(bits), inv, s, k);
  }

  /** The output of a run extends the output before it. */
  lemma RunOutputGrows(bits: nat, s: State, k: nat)
    requires bits >= 2
    ensures var t := Run(bits, s, k).state;
      |s.output| <= |t.output| && t.output[..|s.output|] == s.output
  {
    var n := |s.output|;
    var inv := (t: State) => n <= |t.output| && t.output[..n] == s.output;
    forall t | inv(t) ensures inv(Step(bits)(t).state) {
      OutputOnlyFromOut(bits, t, t.pc);
      var u := StepAt(bits, t, t.pc).state;
      assert u.output[..|t.output|] == t.output;
      assert u.output[..n] == u.output[..|t.output|][..n];
    }
    StepsInvariant(Step(bits), inv, s, k);
  }

  /**
   * The run stops early only at the branching END: a run of k steps that has
   * not ended goes on exactly as a fresh run from where it stopped.
   */
  lemma RunContinues(bits: nat, s: State, k: nat, j: nat)
    requires bits >= 2 && Run(bits, s, k).Completed? && !Run(bits, s, k).state.end
    ensures Run(bits, s, k + j) == Run(bits, Run(bits, s, k).state, j)
  {
    StepsContinue(Step(bits), s, k, j);
  }

  /** Once the branching END has run, more step budget changes nothing. */
  lemma RunStopsAtEnd(bits: nat, s: State, k: nat, j: nat)
    requires bits >= 2 && k >= 1 && Run(bits, s, k).Completed? && Run(bits, s, k).state.end
    ensures Run(bits, s, k + j) == Run(bits, s, k)
  {
    StepsStopAtEnd(Step(bits), s, k, j);
  }

  /** A throw ends the run for good, whatever the remaining budget. */
  lemma RunStopsAtThrow(bits: nat, s: State, k: nat, j: nat)
    requires bits >= 2 && Run(bits, s, k).Failed?
    ensures Run(bits, s, k + j) == Run(bits, s, k)
  {
    StepsStopAtThrow(Step(bits), s, k, j);
  }

  /** `execute` loads instruction i into cells 2i and 2i + 1 and starts at PC 0. */
  lemma BootLoadsProgram(s: State, program: seq<InstructionPiece>)
    ensures var b := Boot(s, program);
      b.pc == 0 &&
      (forall i :: 0 <= i < |program| ==> OpcodeAt(b, 2 * i) == Some(program[i].opcode)) &&
      (forall i :: 0 <= i < |program| ==> OperandAt(b, 2 * i) == Some(program[i].operand))
  {
    LoadCells(s.memory, program, |program|);
  }

  /**
   * MAR is never written, so on a machine fresh from the constructor every
   * STO of a run writes cell 0.
   */
  lemma ExecuteKeepsMarZero(bits: nat, s: State, program: seq<InstructionPiece>)
    requires bits >= 2 && s.mar == 0
    ensures ExecuteProgram(bits, s, program).state.mar == 0
  {
    RunKeepsUnusedRegisters(bits, Boot(s, program), |program|);
  }

  /**
   * The switch has a case for exactly the opcodes the merged table names,
   * except INC and DEC, plus the data-move END, whose name the merge lost.
   */
  lemma DispatchedIffNamed(opcode: int)
    ensures Dispatched(opcode) <==>
      (LookUpMnemonic(opcode) != "UNKNOWN" && opcode != INC && opcode != DEC) || opcode == END_DATA_MOVE
  {
    NamedIff(opcode);
  }
}

/**
 * The machine's own test programs (test/machine/arithmetic.test.ts,
 * test/machine/io.test.ts, src/components/__tests__/machine.test.ts), with
 * their outcomes proved on the step function and on the class.
 */
module EngineScenarios {
  import opened Wrappers
  import opened Registers
  import opened Interpreter
  import opened Engine

  function OpcodeAt(s: State): Option<int> {
    Fetch(s.memory, s.pc).opcode
  }

  function OperandAt(s: State): Option<int> {
    Fetch(s.memory, s.pc).operand
  }

  lemma Pow2Widths()
    ensures Pow2(8) == 256 && Pow2(16) == 65536
  {
    assert Pow2(4) == 16;
    assert Pow2(8) == 256;
    assert Pow2(12) == 4096;
  }

  function AddProgram(): seq<InstructionPiece> {
    [InstructionPiece(LDM, 2), InstructionPiece(ADD_IMMEDIATE, 3), InstructionPiece(END_DATA_MOVE, 0)]
  }

  function SubProgram(): seq<InstructionPiece> {
    [InstructionPiece(LDM, 4), InstructionPiece(SUB_IMMEDIATE, 1), InstructionPiece(END_DATA_MOVE, 0)]
  }

  /** A three-instruction program `a; b; c` as it sits in memory after loading. */
  function Loaded3(p: seq<InstructionPiece>): map<int, int>
    requires |p| == 3
  {
    map[0 := p[0].opcode, 1 := p[0].operand, 2 := p[1].opcode, 3 := p[1].operand, 4 := p[2].opcode, 5 := p[2].operand]
  }

  lemma BootThree(s: State, p: seq<InstructionPiece>)
    requires |p| == 3 && s.memory == map[]
    ensures Boot(s, p) == s.(memory := Loaded3(p), pc := 0)
  {
    assert Load(s.memory, p, 1) == map[0 := p[0].opcode, 1 := p[0].operand];
    assert Load(s.memory, p, 2) == map[0 := p[0].opcode, 1 := p[0].operand, 2 := p[1].opcode, 3 := p[1].operand];
  }

  /** Running `p` for three steps is the three steps in turn, none of which raises `end`. */
  lemma RunThree(bits: nat, s: State, t1: State, t2: State, t3: State)
    requires bits >= 2
    requires StepAt(bits, s, s.pc) == Completed(t1) && !t1.end
    requires StepAt(bits, t1, t1.pc) == Completed(t2) && !t2.end
    requires StepAt(bits, t2, t2.pc) == Completed(t3)
    ensures Run(bits, s, 3) == Completed(t3)
  {
    assert Run(bits, t2, 1) == Completed(t3);
    assert Run(bits, t1, 2) == Completed(t3);
  }

  /** LDM #v with 0 <= v < 2^bits puts v in ACC. */
  lemma LoadImmediateStep(bits: nat, s: State, v: int)
    requires bits >= 2 && 0 <= v < Pow2(bits) && 0 <= s.pc + 2 < Pow2(bits)
    requires OpcodeAt(s) == Some(LDM) && OperandAt(s) == Some(v)
    ensures StepAt(bits, s, s.pc) == Completed(s.(acc := v, pc := s.pc + 2, end := false))
  {
  }

  /** ADD #v and SUB #v within range. */
  lemma AddImmediateStep(bits: nat, s: State, v: int)
    requires bits >= 2 && 0 <= s.acc + v < Pow2(bits) && 0 <= s.pc + 2 < Pow2(bits)
    requires OpcodeAt(s) == Some(ADD_IMMEDIATE) && OperandAt(s) == Some(v)
    ensures StepAt(bits, s, s.pc) == Completed(s.(acc := s.acc + v, pc := s.pc + 2, end := false))
  {
  }

  lemma SubImmediateStep(bits: nat, s: State, v: int)
    requires bits >= 2 && 0 <= s.acc - v < Pow2(bits) && 0 <= s.pc + 2 < Pow2(bits)
    requires OpcodeAt(s) == Some(SUB_IMMEDIATE) && OperandAt(s) == Some(v)
    ensures StepAt(bits, s, s.pc) == Completed(s.(acc := s.acc - v, pc := s.pc + 2, end := false))
  {
  }

  lemma NoOpStep(bits: nat, s: State)
    requires bits >= 2 && 0 <= s.pc + 2 < Pow2(bits) && OpcodeAt(s) == Some(END_DATA_MOVE)
    ensures StepAt(bits, s, s.pc) == Completed(s.(pc := s.pc + 2, end := false))
  {
  }

  /** LDM #2; ADD #3; 0x07 on a 16-bit machine leaves ACC at 5 (the 0x07 does not stop the run). */
  lemma AddProgramGivesFive()
    ensures ExecuteProgram(16, Initial(), AddProgram()) ==
      Completed(Initial().(memory := Loaded3(AddProgram()), acc := 5, pc := 6, end := false))
  {
    Pow2Widths();
    var b := Initial().(memory := Loaded3(AddProgram()));
    BootThree(Initial(), AddProgram());
    LoadImmediateStep(16, b, 2);
    AddImmediateStep(16, b.(acc := 2, pc := 2, end := false), 3);
    NoOpStep(16, b.(acc := 5, pc := 4, end := false));
    RunThree(16, b, b.(acc := 2, pc := 2, end := false), b.(acc := 5, pc := 4, end := false),
             b.(acc := 5, pc := 6, end := false));
  }

  /** LDM #4; SUB #1; 0x07 on a 16-bit machine leaves ACC at 3. */
  lemma SubProgramGivesThree()
    ensures ExecuteProgram(16, Initial(), SubProgram()) ==
      Completed(Initial().(memory := Loaded3(SubProgram()), acc := 3, pc := 6, end := false))
  {
    Pow2Widths();
    var b := Initial().(memory := Loaded3(SubProgram()));
    BootThree(Initial(), SubProgram());
    LoadImmediateStep(16, b, 4);
    SubImmediateStep(16, b.(acc := 4, pc := 2, end := false), 1);
    NoOpStep(16, b.(acc := 3, pc := 4, end := false));
    RunThree(16, b, b.(acc := 4, pc := 2, end := false), b.(acc := 3, pc := 4, end := false),
             b.(acc := 3, pc := 6, end := false));
  }

  lemma InStep(bits: nat, s: State)
    requires bits >= 2 && 0 <= s.pc + 2 < Pow2(bits) && OpcodeAt(s) == Some(IN)
    requires s.input != [] && 0 <= s.input[0] < Pow2(bits)
    ensures StepAt(bits, s, s.pc) == Completed(s.(acc := s.input[0], input := s.input[1..], pc := s.pc + 2, end := false))
  {
  }

  lemma OutStep(bits: nat, s: State)
    requires bits >= 2 && 0 <= s.pc + 2 < Pow2(bits) && OpcodeAt(s) == Some(OUT) && s.hasOutput
    ensures StepAt(bits, s, s.pc) == Completed(s.(output := s.output + [s.acc], pc := s.pc + 2, end := false))
  {
  }

  lemma EndStep(bits: nat, s: State)
    requires bits >= 2 && 0 <= s.pc + 2 < Pow2(bits) && OpcodeAt(s) == Some(END_BRANCHING)
    ensures StepAt(bits, s, s.pc) == Completed(s.(pc := s.pc + 2, end := true))
  {
  }

  function EchoProgram(): seq<InstructionPiece> {
    [InstructionPiece(IN, 0), InstructionPiece(OUT, 0), InstructionPiece(END_BRANCHING, 0)]
  }

  function LetterProgram(): seq<InstructionPiece> {
    [InstructionPiece(LDM, 97), InstructionPiece(OUT, 0), InstructionPiece(END_DATA_MOVE, 0)]
  }

  /** IN; OUT; END with an input device giving 15 sends 15 to the output device, and ends. */
  lemma EchoProgramOutputsInput()
    ensures ExecuteProgram(16, Initial().(input := [15], hasOutput := true), EchoProgram()) ==
      Completed(Initial().(memory := Loaded3(EchoProgram()), acc := 15, pc := 6, end := true, hasOutput := true, output := [15]))
  {
    Pow2Widths();
    var s := Initial().(input := [15], hasOutput := true);
    var b := s.(memory := Loaded3(EchoProgram()));
    BootThree(s, EchoProgram());
    InStep(16, b);
    var t1 := b.(acc := 15, input := [], pc := 2, end := false);
    assert b.input[1..] == [];
    OutStep(16, t1);
    var t2 := t1.(output := [15], pc := 4);
    EndStep(16, t2);
    RunThree(16, b, t1, t2, t2.(pc := 6, end := true));
  }

  /** LDM #97; OUT; 0x07 on an 8-bit machine with an output device outputs 97. */
  lemma LetterProgramOutputs97()
    ensures ExecuteProgram(8, Initial().(hasOutput := true), LetterProgram()) ==
      Completed(Initial().(memory := Loaded3(LetterProgram()), acc := 97, pc := 6, end := false, hasOutput := true, output := [97]))
  {
    Pow2Widths();
    var s := Initial().(hasOutput := true);
    var b := s.(memory := Loaded3(LetterProgram()));
    BootThree(s, LetterProgram());
    LoadImmediateStep(8, b, 97);
    var t1 := b.(acc := 97, pc := 2, end := false);
    OutStep(8, t1);
    var t2 := t1.(output := [97], pc := 4);
    NoOpStep(8, t2);
    RunThree(8, b, t1, t2, t2.(pc := 6));
  }

  /** The arithmetic tests on the class: a new 16-bit machine, then `execute`. */
  method AddScenario() returns (acc: int, error: Option<Error>)
    ensures acc == 5 && error == None
  {
    var m := new Machine(16);
    error := m.Execute(AddProgram());
    AddProgramGivesFive();
    acc := m.acc.GetVal();
  }

  method SubScenario() returns (acc: int, error: Option<Error>)
    ensures acc == 3 && error == None
  {
    var m := new Machine(16);
    error := m.Execute(SubProgram());
    SubProgramGivesThree();
    acc := m.acc.GetVal();
  }

  /** The I/O test on the class: both devices attached, then `execute`. */
  method EchoScenario() returns (output: seq<int>, error: Option<Error>)
    ensures output == [15] && error == None
  {
    var m := new Machine(16);
    m.AddDevice(OutputDevice);
    m.AddDevice(InputDevice([15]));
    error := m.Execute(EchoProgram());
    EchoProgramOutputsInput();
    output := m.output;
  }

  /** The component test on the class: an 8-bit machine outputs the letter a. */
  method LetterScenario() returns (output: seq<int>, error: Option<Error>)
    ensures output == [97] && error == None
  {
    var m := new Machine(8);
    m.AddDevice(OutputDevice);
    error := m.Execute(LetterProgram());
    LetterProgramOutputs97();
    output := m.output;
  }

  /** A machine narrower than 8 bits cannot be built. */
  method NarrowMachineScenario() returns (r: Result<Machine, string>)
    ensures r == Err(WIDTH_ERROR)
  {
    r := Machine.Create(7);
  }
}
