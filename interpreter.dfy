/**
 * The opcode tables the machine dispatches on
 * (src/libs/interpreter-core/interpreter.ts). An opcode is
 * <4-bit group><4-bit operation>.
 */
module Interpreter {
  import opened Wrappers
  import opened JsObjects

  /** One instruction word as handed to the machine: opcode and operand. */
  datatype InstructionPiece = InstructionPiece(opcode: int, operand: int)

  // Data move, group 0x0
  const LDM := 0x00
  const LDD := 0x01
  const LDI := 0x02
  const LDX := 0x03
  const LDR := 0x04
  const MOV := 0x05
  const STO := 0x06
  const END_DATA_MOVE := 0x07
  // Input/output, group 0x1
  const IN := 0x10
  const OUT := 0x11
  // Arithmetic, group 0x2
  const ADD_ADDRESS := 0x20
  const ADD_IMMEDIATE := 0x21
  const SUB_ADDRESS := 0x22
  const SUB_IMMEDIATE := 0x23
  const INC := 0x24
  const DEC := 0x25
  // Branching, group 0x3
  const JMP := 0x30
  const JPE := 0x31
  const JPN := 0x32
  const END_BRANCHING := 0x33
  // Comparison, group 0x4
  const CMP_ADDRESS := 0x40
  const CMP_IMMEDIATE := 0x41
  const CMI_ADDRESS := 0x42

  function DataMove(): Object {
    [("LDM", LDM), ("LDD", LDD), ("LDI", LDI), ("LDX", LDX),
     ("LDR", LDR), ("MOV", MOV), ("STO", STO), ("END", END_DATA_MOVE)]
  }

  function InputOutput(): Object {
    [("IN", IN), ("OUT", OUT)]
  }

  function Arithmetic(): Object {
    [("ADD_ADDRESS", ADD_ADDRESS), ("ADD_IMMEDIATE", ADD_IMMEDIATE),
     ("SUB_ADDRESS", SUB_ADDRESS), ("SUB_IMMEDIATE", SUB_IMMEDIATE), ("INC", INC), ("DEC", DEC)]
  }

  function Branching(): Object {
    [("JMP", JMP), ("JPE", JPE), ("JPN", JPN), ("END", END_BRANCHING)]
  }

  function Compare(): Object {
    [("CMP_ADDRESS", CMP_ADDRESS), ("CMP_IMMEDIATE", CMP_IMMEDIATE), ("CMI_ADDRESS", CMI_ADDRESS)]
  }

  /** `{...DataMove, ...InputOutput, ...Arithmetic, ...Branching, ...Compare}`. */
  const ALL_MNEMONICS: Object :=
    Spread(Spread(Spread(Spread(Spread([], DataMove()), InputOutput()), Arithmetic()), Branching()), Compare())

  /** The name of an opcode in the merged table, or "UNKNOWN". */
  function LookUpMnemonic(opcode: int): string {
    match FindKey(ALL_MNEMONICS, opcode)
    case Some(k) => k
    case None => "UNKNOWN"
  }

  /** The opcode's group is its high nibble, and opcodes are distinct within each group. */
  lemma GroupNibbles()
    ensures forall i :: 0 <= i < |DataMove()| ==> DataMove()[i].1 / 16 == 0x0
    ensures forall i :: 0 <= i < |InputOutput()| ==> InputOutput()[i].1 / 16 == 0x1
    ensures forall i :: 0 <= i < |Arithmetic()| ==> Arithmetic()[i].1 / 16 == 0x2
    ensures forall i :: 0 <= i < |Branching()| ==> Branching()[i].1 / 16 == 0x3
    ensures forall i :: 0 <= i < |Compare()| ==> Compare()[i].1 / 16 == 0x4
    ensures DistinctValues(DataMove()) && DistinctValues(InputOutput()) && DistinctValues(Arithmetic())
    ensures DistinctValues(Branching()) && DistinctValues(Compare())
  {
  }

  /** The merged table as a literal, in key insertion order. */
  function MergedTable(): Object {
    [("LDM", 0x00), ("LDD", 0x01), ("LDI", 0x02), ("LDX", 0x03),
     ("LDR", 0x04), ("MOV", 0x05), ("STO", 0x06), ("END", 0x33), ("IN", 0x10), ("OUT", 0x11),
     ("ADD_ADDRESS", 0x20), ("ADD_IMMEDIATE", 0x21), ("SUB_ADDRESS", 0x22), ("SUB_IMMEDIATE", 0x23),
     ("INC", 0x24), ("DEC", 0x25), ("JMP", 0x30), ("JPE", 0x31), ("JPN", 0x32),
     ("CMP_ADDRESS", 0x40), ("CMP_IMMEDIATE", 0x41), ("CMI_ADDRESS", 0x42)]
  }

  lemma MergedTableDistinct()
    ensures DistinctKeys(MergedTable()) && DistinctValues(MergedTable())
  {
    var o := MergedTable();
    forall i, j | 0 <= i < j < |o| ensures o[i].0 != o[j].0 && o[i].1 != o[j].1 {
      if i < 8 {
        if j < 8 {} else if j < 16 {} else {}
      } else if i < 16 {
        if j < 16 {} else {}
      }
    }
  }

  /**
   * The merge: the branching END overwrites the data-move END in place, so
   * END keeps its eighth position and takes the value 0x33.
   */
  lemma AllMnemonicsTable()
    ensures ALL_MNEMONICS == MergedTable()
  {
    MergedTableDistinct();
    var x := MergedUpToArithmetic();
    var z := MergedUpToBranching(x);
    MergedCompare(z);
  }

  lemma MergedUpToArithmetic() returns (x: Object)
    requires DistinctKeys(MergedTable())
    ensures x == DataMove() + InputOutput() + Arithmetic()
    ensures Spread(Spread(Spread([], DataMove()), InputOutput()), Arithmetic()) == x
  {
    MergedDataMove();
    MergedInputOutput();
    MergedArithmetic();
    x := DataMove() + InputOutput() + Arithmetic();
  }

  lemma MergedDataMove()
    requires DistinctKeys(MergedTable())
    ensures Spread([], DataMove()) == DataMove()
  {
    var dm := DataMove();
    assert [] + dm == dm;
    DistinctKeysByPrefix(dm, MergedTable());
    SpreadAllFresh([], dm);
  }

  lemma MergedInputOutput()
    requires DistinctKeys(MergedTable())
    ensures Spread(DataMove(), InputOutput()) == DataMove() + InputOutput()
  {
    DistinctKeysByPrefix(DataMove() + InputOutput(), MergedTable());
    SpreadAllFresh(DataMove(), InputOutput());
  }

  lemma MergedArithmetic()
    requires DistinctKeys(MergedTable())
    ensures Spread(DataMove() + InputOutput(), Arithmetic()) == DataMove() + InputOutput() + Arithmetic()
  {
    DistinctKeysByPrefix(DataMove() + InputOutput() + Arithmetic(), MergedTable());
    SpreadAllFresh(DataMove() + InputOutput(), Arithmetic());
  }

  lemma MergedUpToBranching(x: Object) returns (z: Object)
    requires DistinctKeys(MergedTable())
    requires x == DataMove() + InputOutput() + Arithmetic()
    ensures Spread(x, Branching()) == z
    ensures z == x[7 := ("END", END_BRANCHING)] + Branching()[0..3]
  {
    var br := Branching();
    var y := x + br[0..3];
    DistinctKeysByPrefix(y, MergedTable());
    SpreadFresh(x, br, 0, 3);
    EndAtSeven(x, y);
    assert Spread(y, br, 3) == Assign(y, "END", END_BRANCHING);
    z := y[7 := ("END", END_BRANCHING)];
  }

  lemma EndAtSeven(x: Object, y: Object)
    requires x == DataMove() + InputOutput() + Arithmetic()
    requires y == x + Branching()[0..3]
    ensures IndexOfKey(y, "END") == 7
  {
    var dm := DataMove();
    assert IndexOfKey(dm, "END") == 7;
    assert y == dm + (InputOutput() + Arithmetic() + Branching()[0..3]);
    IndexOfKeyAppend(dm, InputOutput() + Arithmetic() + Branching()[0..3], "END");
  }

  lemma MergedCompare(z: Object)
    requires DistinctKeys(MergedTable())
    requires z == (DataMove() + InputOutput() + Arithmetic())[7 := ("END", END_BRANCHING)] + Branching()[0..3]
    ensures Spread(z, Compare()) == MergedTable()
  {
    assert z + Compare() == MergedTable();
    SpreadAllFresh(z, Compare());
  }

  /** Every key of the merged table appears once and holds a distinct opcode. */
  lemma AllMnemonicsDistinct()
    ensures DistinctKeys(ALL_MNEMONICS)
    ensures DistinctValues(ALL_MNEMONICS)
  {
    AllMnemonicsTable();
    MergedTableDistinct();
  }

  lemma MergedTableEnd()
    ensures Get(MergedTable(), "END") == Some(END_BRANCHING)
  {
  }

  lemma MergedTableNoUnknown()
    ensures forall i :: 0 <= i < |MergedTable()| ==> MergedTable()[i].0 != "UNKNOWN"
  {
  }

  lemma MergedTableNoDataMoveEnd()
    ensures forall i :: 0 <= i < |MergedTable()| ==> MergedTable()[i].1 != END_DATA_MOVE
  {
  }

  /** The merged table maps END to the branching opcode. */
  lemma EndIsBranching()
    ensures Get(ALL_MNEMONICS, "END") == Some(END_BRANCHING)
  {
    AllMnemonicsTable();
    MergedTableEnd();
  }

  /** Looking up the opcode of any key of the merged table gives back that key. */
  lemma LookUpRoundTrip(k: string)
    requires HasKey(ALL_MNEMONICS, k)
    ensures LookUpMnemonic(Get(ALL_MNEMONICS, k).value) == k
  {
    AllMnemonicsDistinct();
    FindKeyRoundTrip(ALL_MNEMONICS, k);
  }

  /**
   * LookUpMnemonic returns a key holding the opcode, or "UNKNOWN" exactly when
   * no key holds it.
   */
  lemma LookUpSpec(opcode: int)
    ensures LookUpMnemonic(opcode) == "UNKNOWN" <==> forall i :: 0 <= i < |ALL_MNEMONICS| ==> ALL_MNEMONICS[i].1 != opcode
    ensures LookUpMnemonic(opcode) != "UNKNOWN" ==> Get(ALL_MNEMONICS, LookUpMnemonic(opcode)) == Some(opcode)
  {
    AllMnemonicsTable();
    AllMnemonicsDistinct();
    MergedTableNoUnknown();
    FindKeySpec(ALL_MNEMONICS, opcode);
    FindKeyGet(ALL_MNEMONICS, opcode);
  }

  /** The data-move END has no name once the tables are merged. */
  lemma DataMoveEndUnknown()
    ensures LookUpMnemonic(END_DATA_MOVE) == "UNKNOWN"
  {
    AllMnemonicsTable();
    MergedTableNoDataMoveEnd();
    LookUpSpec(END_DATA_MOVE);
  }

  /** The opcodes the merged table names. */
  predicate IsNamedOpcode(v: int) {
    v in {0x00, 0x01, 0x02, 0x03, 0x04, 0x05, 0x06, 0x10, 0x11, 0x20, 0x21, 0x22, 0x23, 0x24, 0x25,
          0x30, 0x31, 0x32, 0x33, 0x40, 0x41, 0x42}
  }

  lemma MergedTableValues(v: int)
    ensures (exists i :: 0 <= i < |MergedTable()| && MergedTable()[i].1 == v) <==> IsNamedOpcode(v)
  {
    var o := MergedTable();
    if IsNamedOpcode(v) {
      var i := if v < 0x07 then v else if v < 0x20 then v - 0x08 else if v < 0x30 then v - 0x16
               else if v < 0x33 then v - 0x20 else if v == 0x33 then 7 else v - 0x2D;
      assert o[i].1 == v;
    } else {
      assert forall i :: 0 <= i < |o| ==> IsNamedOpcode(o[i].1);
    }
  }

  /** The opcodes that have a name once the tables are merged. */
  lemma NamedIff(opcode: int)
    ensures LookUpMnemonic(opcode) != "UNKNOWN" <==> IsNamedOpcode(opcode)
  {
    AllMnemonicsTable();
    LookUpSpec(opcode);
    MergedTableValues(opcode);
  }
}
