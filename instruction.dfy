/**
 * A second copy of the opcode tables (src/libs/interpreter-core/instruction.ts),
 * together with the instruction types declared beside it. The machine does not
 * use this copy. It differs from the machine's tables: the data-move group has
 * no END, the branching group adds JMR, and the indirect compare is named CMI.
 */
module Instruction {
  import opened Wrappers
  import opened JsObjects
  import Interpreter

  /** An operand as `intermediateInstructionType` declares it: a label name still to resolve, or a number. */
  datatype Operand = LabelRef(name: string) | Number(value: int)

  /** A source line after the first pass: its label, its mnemonic and its operand. */
  datatype IntermediateInstruction = IntermediateInstruction(labelName: string, mnemonic: string, operand: Operand)

  /** The relative jump, found only in this table. */
  const JMR := 0x34
  /** The indirect compare, named CMI here and CMI_ADDRESS in the machine's table. */
  const CMI := 0x42

  function DataMove(): Object {
    [("LDM", 0x00), ("LDD", 0x01), ("LDI", 0x02), ("LDX", 0x03),
     ("LDR", 0x04), ("MOV", 0x05), ("STO", 0x06)]
  }

  function Branching(): Object {
    [("JMP", 0x30), ("JPE", 0x31), ("JPN", 0x32), ("END", 0x33), ("JMR", JMR)]
  }

  function Compare(): Object {
    [("CMP_ADDRESS", 0x40), ("CMP_IMMEDIATE", 0x41), ("CMI", CMI)]
  }

  /**
   * `{...DataMove, ...IO, ...Arithmetic, ...Branching, ...Compare}`. The I/O and
   * arithmetic groups are the same as the machine's.
   */
  const ALL_MNEMONICS: Object :=
    Spread(Spread(Spread(Spread(Spread([], DataMove()), Interpreter.InputOutput()),
      Interpreter.Arithmetic()), Branching()), Compare())

  /** The name of an opcode in this table, or "UNKNOWN". */
  function LookUpMnemonic(opcode: int): string {
    match FindKey(ALL_MNEMONICS, opcode)
    case Some(k) => k
    case None => "UNKNOWN"
  }

  /** The merged table as a literal: no key repeats, so it is the five groups one after another. */
  function MergedTable(): Object {
    [("LDM", 0x00), ("LDD", 0x01), ("LDI", 0x02), ("LDX", 0x03),
     ("LDR", 0x04), ("MOV", 0x05), ("STO", 0x06), ("IN", 0x10), ("OUT", 0x11),
     ("ADD_ADDRESS", 0x20), ("ADD_IMMEDIATE", 0x21), ("SUB_ADDRESS", 0x22), ("SUB_IMMEDIATE", 0x23),
     ("INC", 0x24), ("DEC", 0x25), ("JMP", 0x30), ("JPE", 0x31), ("JPN", 0x32), ("END", 0x33),
     ("JMR", 0x34), ("CMP_ADDRESS", 0x40), ("CMP_IMMEDIATE", 0x41), ("CMI", 0x42)]
  }

  /** Each group's opcodes carry the group's number in their high nibble. */
  lemma GroupNibbles()
    ensures forall i :: 0 <= i < |DataMove()| ==> DataMove()[i].1 / 16 == 0x0
    ensures forall i :: 0 <= i < |Branching()| ==> Branching()[i].1 / 16 == 0x3
    ensures forall i :: 0 <= i < |Compare()| ==> Compare()[i].1 / 16 == 0x4
  {
  }

  lemma MergedTableDistinct()
    ensures DistinctKeys(MergedTable()) && DistinctValues(MergedTable())
  {
    var o := MergedTable();
    forall i, j | 0 <= i < j < |o| ensures o[i].0 != o[j].0 && o[i].1 != o[j].1 {
      if i < 8 {
        if j < 8 {} else if j < 16 {} else {}
      } else if i < 16 {
        if j < 16 {} else {}
      }
    }
  }

  lemma MergedPrefixes()
    requires DistinctKeys(MergedTable())
    ensures DistinctKeys(DataMove() + Interpreter.InputOutput())
    ensures DistinctKeys(DataMove() + Interpreter.InputOutput() + Interpreter.Arithmetic())
    ensures DistinctKeys(DataMove() + Interpreter.InputOutput() + Interpreter.Arithmetic() + Branching())
  {
    var a := DataMove() + Interpreter.InputOutput();
    var b := a + Interpreter.Arithmetic();
    var c := b + Branching();
    DistinctKeysByPrefix(a, MergedTable());
    DistinctKeysByPrefix(b, MergedTable());
    DistinctKeysByPrefix(c, MergedTable());
  }

  /** Spreading groups with no key in common appends them. */
  lemma AllMnemonicsTable()
    ensures ALL_MNEMONICS == MergedTable()
  {
    MergedTableDistinct();
    MergedPrefixes();
    var c := MergedUpToBranching();
    MergedCompare(c);
  }

  lemma MergedCompare(c: Object)
    requires DistinctKeys(MergedTable())
    requires c == DataMove() + Interpreter.InputOutput() + Interpreter.Arithmetic() + Branching()
    ensures Spread(c, Compare()) == MergedTable()
  {
    assert c + Compare() == MergedTable();
    SpreadAllFresh(c, Compare());
  }

  lemma MergedUpToBranching() returns (c: Object)
    requires DistinctKeys(MergedTable())
    requires DistinctKeys(DataMove() + Interpreter.InputOutput() + Interpreter.Arithmetic() + Branching())
    ensures c == DataMove() + Interpreter.InputOutput() + Interpreter.Arithmetic() + Branching()
    ensures Spread(Spread(Spread(Spread([], DataMove()), Interpreter.InputOutput()), Interpreter.Arithmetic()), Branching()) == c
  {
    var b := MergedUpToArithmetic();
    SpreadAllFresh(b, Branching());
    c := b + Branching();
  }

  lemma MergedUpToArithmetic() returns (b: Object)
    requires DistinctKeys(MergedTable())
    requires DistinctKeys(DataMove() + Interpreter.InputOutput())
    requires DistinctKeys(DataMove() + Interpreter.InputOutput() + Interpreter.Arithmetic())
    ensures b == DataMove() + Interpreter.InputOutput() + Interpreter.Arithmetic()
    ensures Spread(Spread(Spread([], DataMove()), Interpreter.InputOutput()), Interpreter.Arithmetic()) == b
  {
    var dm := DataMove();
    assert [] + dm == dm;
    DistinctKeysByPrefix(dm, MergedTable());
    SpreadAllFresh([], dm);
    SpreadAllFresh(dm, Interpreter.InputOutput());
    var a := dm + Interpreter.InputOutput();
    SpreadAllFresh(a, Interpreter.Arithmetic());
    b := a + Interpreter.Arithmetic();
  }

  lemma AllMnemonicsDistinct()
    ensures DistinctKeys(ALL_MNEMONICS) && DistinctValues(ALL_MNEMONICS)
  {
    AllMnemonicsTable();
    MergedTableDistinct();
  }

  lemma MergedTableNoUnknown()
    ensures forall i :: 0 <= i < |MergedTable()| ==> MergedTable()[i].0 != "UNKNOWN"
  {
  }

  /** Looking up the opcode of any key of the table gives back that key. */
  lemma LookUpRoundTrip(k: string)
    requires HasKey(ALL_MNEMONICS, k)
    ensures LookUpMnemonic(Get(ALL_MNEMONICS, k).value) == k
  {
    AllMnemonicsDistinct();
    FindKeyRoundTrip(ALL_MNEMONICS, k);
  }

  /**
   * LookUpMnemonic returns a key holding the opcode, or "UNKNOWN" exactly when
   * no key holds it.
   */
  lemma LookUpSpec(opcode: int)
    ensures LookUpMnemonic(opcode) == "UNKNOWN" <==> forall i :: 0 <= i < |ALL_MNEMONICS| ==> ALL_MNEMONICS[i].1 != opcode
    ensures LookUpMnemonic(opcode) != "UNKNOWN" ==> Get(ALL_MNEMONICS, LookUpMnemonic(opcode)) == Some(opcode)
  {
    AllMnemonicsTable();
    AllMnemonicsDistinct();
    MergedTableNoUnknown();
    FindKeySpec(ALL_MNEMONICS, opcode);
    FindKeyGet(ALL_MNEMONICS, opcode);
  }

  /** Where each entry of this table sits in the machine's table (-1: not there). */
  function InterpreterIndex(i: nat): int {
    if i < 7 then i
    else if i < 15 then i + 1
    else if i < 18 then i + 1
    else if i == 18 then 7
    else if i == 20 || i == 21 then i - 1
    else -1
  }

  /** Where each entry of the machine's table sits in this table. */
  function InstructionIndex(j: nat): int {
    if j < 7 then j
    else if j == 7 then 18
    else if j < 19 then j - 1
    else if j < 21 then j + 1
    else -1
  }

  /** The two tables hold the same (name, opcode) pairs, except for the opcodes 0x34 and 0x42. */
  lemma SameEntries(v: int)
    requires v != JMR && v != CMI
    ensures forall i :: 0 <= i < |MergedTable()| && MergedTable()[i].1 == v ==>
              exists j :: 0 <= j < |Interpreter.MergedTable()| && Interpreter.MergedTable()[j] == MergedTable()[i]
    ensures forall j :: 0 <= j < |Interpreter.MergedTable()| && Interpreter.MergedTable()[j].1 == v ==>
              exists i :: 0 <= i < |MergedTable()| && MergedTable()[i] == Interpreter.MergedTable()[j]
  {
    var a := MergedTable();
    var b := Interpreter.MergedTable();
    forall i | 0 <= i < |a| && a[i].1 == v
      ensures exists j :: 0 <= j < |b| && b[j] == a[i]
    {
      var j := InterpreterIndex(i);
      assert b[j] == a[i];
    }
    forall j | 0 <= j < |b| && b[j].1 == v
      ensures exists i :: 0 <= i < |a| && a[i] == b[j]
    {
      var i := InstructionIndex(j);
      assert a[i] == b[j];
    }
  }

  /**
   * Both copies of lookUpMnemonic name every opcode alike except 0x34 and 0x42;
   * in particular 0x07 is "UNKNOWN" in both.
   */
  lemma AgreesWithInterpreter(opcode: int)
    requires opcode != JMR && opcode != CMI
    ensures LookUpMnemonic(opcode) == Interpreter.LookUpMnemonic(opcode)
  {
    AllMnemonicsTable();
    Interpreter.AllMnemonicsTable();
    MergedTablesAgree(opcode);
  }

  lemma MergedTablesAgree(v: int)
    requires v != JMR && v != CMI
    ensures FindKey(MergedTable(), v) == FindKey(Interpreter.MergedTable(), v)
  {
    MergedTableDistinct();
    Interpreter.MergedTableDistinct();
    SameEntries(v);
    FindKeySameEntries(MergedTable(), Interpreter.MergedTable(), v);
  }

  /** The two opcodes the tables name differently. */
  lemma Differences()
    ensures LookUpMnemonic(JMR) == "JMR" && Interpreter.LookUpMnemonic(JMR) == "UNKNOWN"
    ensures LookUpMnemonic(CMI) == "CMI" && Interpreter.LookUpMnemonic(CMI) == "CMI_ADDRESS"
  {
    OwnNames();
    MachineNames();
  }

  lemma OwnNames()
    ensures LookUpMnemonic(JMR) == "JMR" && LookUpMnemonic(CMI) == "CMI"
  {
    AllMnemonicsTable();
    MergedTableDistinct();
    assert MergedTable()[19] == ("JMR", JMR);
    assert MergedTable()[22] == ("CMI", CMI);
    FindKeyAt(MergedTable(), 19);
    FindKeyAt(MergedTable(), 22);
  }

  lemma MachineNames()
    ensures Interpreter.LookUpMnemonic(JMR) == "UNKNOWN"
    ensures Interpreter.LookUpMnemonic(CMI) == "CMI_ADDRESS"
  {
    var m := Interpreter.MergedTable();
    Interpreter.AllMnemonicsTable();
    Interpreter.MergedTableDistinct();
    assert m[21] == ("CMI_ADDRESS", CMI);
    FindKeyAt(m, 21);
    MachineTableNoJmr();
    FindKeySpec(m, JMR);
  }

  lemma MachineTableNoJmr()
    ensures forall i :: 0 <= i < |Interpreter.MergedTable()| ==> Interpreter.MergedTable()[i].1 != JMR
  {
  }
}
