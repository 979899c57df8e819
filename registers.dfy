/**
 * Registers of the machine (src/libs/interpreter-core/register.ts).
 *
 * A register stores `parseInt(v.toString(2).slice(0, bits), 2)`: the value's
 * binary spelling cut to at most `bits` characters. For a non-negative value
 * this keeps its leading binary digits; for a negative value the `-` sign
 * takes one of the characters.
 */
module Registers {
  import opened Wrappers

  function Pow2(k: nat): (r: int)
    ensures r >= 1
  {
    if k == 0 then 1 else 2 * Pow2(k - 1)
  }

  /** The number of binary digits `v.toString(2)` prints for `v >= 0`. */
  function BitLength(v: nat): (r: nat)
    ensures r >= 1
  {
    if v < 2 then 1 else 1 + BitLength(v / 2)
  }

  lemma {:induction false} BitLengthBound(k: nat, v: nat)
    requires k >= 1
    ensures v < Pow2(k) <==> BitLength(v) <= k
    decreases v
  {
    if v >= 2 {
      if k == 1 {
        assert Pow2(1) == 2;
      } else {
        BitLengthBound(k - 1, v / 2);
      }
    }
  }

  /** The leading `k` binary digits of `v`: drops trailing digits until `v` fits. */
  function KeepLeading(k: nat, v: nat): (r: int)
    requires k >= 1
    ensures 0 <= r < Pow2(k)
    ensures r <= v
    ensures v >= 1 ==> r >= 1
    decreases v
  {
    if v < Pow2(k) then v else KeepLeading(k, v / 2)
  }

  /**
   * The value `setVal` stores for `v` in a register of width `bits`
   * (register.ts:15, machine.ts:72). Widths below 2 are excluded: there the
   * source computes NaN for some inputs (see JsTruncateNaN).
   */
  function Truncate(bits: nat, v: int): (r: int)
    requires bits >= 2
    ensures -Pow2(bits - 1) < r < Pow2(bits)
    ensures 0 <= v < Pow2(bits) ==> r == v
    ensures -Pow2(bits - 1) < v < 0 ==> r == v
    ensures (r < 0) == (v < 0)
  {
    assert Pow2(bits) == 2 * Pow2(bits - 1);
    if v >= 0 then KeepLeading(bits, v) else -KeepLeading(bits - 1, -v)
  }

  /** Truncation is idempotent: storing a stored value again changes nothing. */
  lemma TruncateIdempotent(bits: nat, v: int)
    requires bits >= 2
    ensures Truncate(bits, Truncate(bits, v)) == Truncate(bits, v)
  {
  }

  /**
   * A value at least 2^k keeps exactly its leading k digits: it is v shifted
   * right by BitLength(v) - k, and it has k digits itself.
   */
  lemma {:induction false} KeepLeadingShift(k: nat, v: nat)
    requires k >= 1 && v >= Pow2(k)
    ensures BitLength(v) > k
    ensures KeepLeading(k, v) == v / Pow2(BitLength(v) - k)
    ensures Pow2(k - 1) <= KeepLeading(k, v)
    decreases v
  {
    BitLengthBound(k, v);
    assert Pow2(k) == 2 * Pow2(k - 1);
    if v / 2 < Pow2(k) {
      BitLengthBound(k, v / 2);
      BitLengthBound(k + 1, v);
      assert Pow2(k + 1) == 2 * Pow2(k);
      assert BitLength(v) == k + 1;
      assert v / Pow2(1) == v / 2;
    } else {
      KeepLeadingShift(k, v / 2);
      var s := BitLength(v / 2) - k;
      assert BitLength(v) - k == s + 1;
      DivDiv(v, s);
    }
  }

  lemma {:induction false} DivDiv(v: nat, s: nat)
    ensures v / Pow2(s + 1) == (v / 2) / Pow2(s)
  {
    var p := Pow2(s);
    assert Pow2(s + 1) == 2 * p;
    var q := (v / 2) / p;
    var r2 := (v / 2) % p;
    var r := 2 * r2 + v % 2;
    assert v / 2 == p * q + r2;
    assert v == 2 * (v / 2) + v % 2;
    MulAssoc(p, q);
    assert v == (2 * p) * q + r;
    DivUnique(v, 2 * p, q, r);
  }

  lemma MulAssoc(p: int, q: int)
    ensures 2 * (p * q) == (2 * p) * q
  {
  }

  lemma DivUnique(v: int, d: int, q: int, r: int)
    requires d > 0 && v == d * q + r && 0 <= r < d
    ensures v / d == q
  {
    var q2, r2 := v / d, v % d;
    assert v == d * q2 + r2;
    MulSub(d, q, q2);
    if q > q2 {
      MulAtLeast(d, q - q2);
    } else if q < q2 {
      MulSub(d, q2, q);
      MulAtLeast(d, q2 - q);
    }
  }

  lemma MulSub(d: int, a: int, b: int)
    ensures d * (a - b) == d * a - d * b
  {
  }

  lemma {:induction false} MulAtLeast(d: int, x: int)
    requires d > 0 && x >= 1
    ensures d * x >= d
    decreases x
  {
    if x > 1 {
      MulAtLeast(d, x - 1);
      MulSub(d, x, 1);
    }
  }

  /** For v >= 2^bits the stored value has exactly `bits` digits. */
  lemma TruncateLarge(bits: nat, v: int)
    requires bits >= 2 && v >= Pow2(bits)
    ensures BitLength(v) > bits
    ensures Truncate(bits, v) == v / Pow2(BitLength(v) - bits)
    ensures Pow2(bits - 1) <= Truncate(bits, v) < Pow2(bits)
  {
    KeepLeadingShift(bits, v);
  }

  /**
   * For a negative v the sign takes one character of the width: a magnitude
   * below 2^(bits-1) is kept, a larger one keeps exactly its leading bits-1
   * digits, i.e. it is shifted right by its excess length.
   */
  lemma TruncateNegative(bits: nat, v: int)
    requires bits >= 2 && v < 0
    ensures -v < Pow2(bits - 1) ==> Truncate(bits, v) == v
    ensures -v >= Pow2(bits - 1) ==>
      BitLength(-v) > bits - 1 && Truncate(bits, v) == -((-v) / Pow2(BitLength(-v) - (bits - 1)))
    ensures -v >= Pow2(bits - 1) ==> Pow2(bits - 2) <= -Truncate(bits, v) < Pow2(bits - 1)
  {
    var w: nat := -v;
    if w >= Pow2(bits - 1) {
      KeepLeadingShift(bits - 1, w);
    }
  }

  /** The truncation is not reduction modulo 2^bits. */
  lemma TruncateIsNotModulo()
    ensures Truncate(8, 256) == 128
    ensures 256 % Pow2(8) == 0
  {
    assert Pow2(8) == 256;
    assert Pow2(7) == 128;
  }

  // ---------------------------------------------------------------------
  // A reference model in terms of JavaScript strings.

  function DigitChar(d: nat): char
    requires d < 2
  {
    if d == 0 then '0' else '1'
  }

  predicate IsBinaryDigit(c: char) {
    c == '0' || c == '1'
  }

  /** `v.toString(2)` for v >= 0: most significant digit first, "0" for 0. */
  function Binary(v: nat): (s: string)
    ensures |s| == BitLength(v)
    ensures forall i :: 0 <= i < |s| ==> IsBinaryDigit(s[i])
  {
    if v < 2 then [DigitChar(v)] else Binary(v / 2) + [DigitChar(v % 2)]
  }

  /** `Number.prototype.toString(2)` on an integer. */
  function JsToBinaryString(v: int): string {
    if v < 0 then "-" + Binary(-v) else Binary(v)
  }

  /** The longest prefix of `s` made of binary digits. */
  function BinaryPrefix(s: string): (p: string)
    ensures |p| <= |s| && p == s[..|p|]
    ensures forall i :: 0 <= i < |p| ==> IsBinaryDigit(p[i])
  {
    if s == [] || !IsBinaryDigit(s[0]) then [] else [s[0]] + BinaryPrefix(s[1..])
  }

  /** The number a string of binary digits denotes. */
  function DigitsValue(s: string): (r: int)
    ensures r >= 0
  {
    if s == [] then 0
    else 2 * DigitsValue(s[..|s| - 1]) + (if s[|s| - 1] == '1' then 1 else 0)
  }

  /** `parseInt(s, 2)`, with None for NaN; a leading sign is honoured, parsing stops at the first non-digit. */
  function JsParseBinary(s: string): Option<int> {
    var negative := |s| > 0 && s[0] == '-';
    var body := if |s| > 0 && (s[0] == '-' || s[0] == '+') then s[1..] else s;
    var digits := BinaryPrefix(body);
    if digits == [] then None
    else Some(if negative then -DigitsValue(digits) else DigitsValue(digits))
  }

  /** `String.prototype.slice(0, k)`. */
  function SliceTo(s: string, k: nat): string {
    if k <= |s| then s[..k] else s
  }

  /** The source's expression `parseInt(v.toString(2).slice(0, bits), 2)`. */
  function JsTruncate(bits: nat, v: int): Option<int> {
    JsParseBinary(SliceTo(JsToBinaryString(v), bits))
  }

  lemma {:induction false} BinaryPrefixAll(s: string)
    requires forall i :: 0 <= i < |s| ==> IsBinaryDigit(s[i])
    ensures BinaryPrefix(s) == s
  {
    if s != [] {
      BinaryPrefixAll(s[1..]);
    }
  }

  lemma {:induction false} BinaryValue(v: nat)
    ensures DigitsValue(Binary(v)) == v
  {
    if v >= 2 {
      var s := Binary(v);
      assert s[..|s| - 1] == Binary(v / 2);
      BinaryValue(v / 2);
    }
  }

  /** Cutting `Binary(v)` to k >= 1 characters yields the leading k digits. */
  lemma {:induction false} SliceValue(k: nat, v: nat)
    requires k >= 1
    ensures DigitsValue(SliceTo(Binary(v), k)) == KeepLeading(k, v)
    decreases v
  {
    BitLengthBound(k, v);
    if v < Pow2(k) {
      BinaryValue(v);
      assert SliceTo(Binary(v), k) == Binary(v);
    } else {
      assert BitLength(v / 2) >= k;
      assert Binary(v)[..k] == Binary(v / 2)[..k];
      SliceValue(k, v / 2);
    }
  }

  lemma SliceSign(b: string, k: nat)
    requires k >= 1
    ensures SliceTo("-" + b, k) == "-" + SliceTo(b, k - 1)
  {
    if k <= |b| + 1 {
      assert ("-" + b)[..k] == "-" + b[..k - 1];
    }
  }

  /** `toString(2)` of a negative number: a minus sign, then the magnitude. */
  lemma NegativeBinaryString(v: int)
    requires v < 0
    ensures JsToBinaryString(v) == "-" + Binary(-v)
  {
  }

  /** `parseInt` of a string with a leading minus sign. */
  lemma ParseMinus(s: string)
    requires |s| > 0 && s[0] == '-'
    ensures JsParseBinary(s) == if BinaryPrefix(s[1..]) == [] then None else Some(-DigitsValue(BinaryPrefix(s[1..])))
  {
  }

  lemma ParseNegative(t: string)
    requires t != [] && BinaryPrefix(t) == t
    ensures JsParseBinary("-" + t) == Some(-DigitsValue(t))
  {
    var s := "-" + t;
    assert s[1..] == t;
    ParseMinus(s);
  }

  /** The recursive definition agrees with the source's string expression. */
  lemma TruncateMatchesJs(bits: nat, v: int)
    requires bits >= 2
    ensures JsTruncate(bits, v) == Some(Truncate(bits, v))
  {
    if v >= 0 {
      JsTruncateNonNegative(bits, v);
    } else {
      JsTruncateNegative(bits, v);
    }
  }

  lemma JsTruncateNonNegative(bits: nat, v: nat)
    requires bits >= 1
    ensures JsTruncate(bits, v) == Some(KeepLeading(bits, v))
  {
    var cut := SliceTo(Binary(v), bits);
    SliceValue(bits, v);
    BinaryPrefixAll(cut);
    assert cut != [];
  }

  lemma JsTruncateNegative(bits: nat, v: int)
    requires bits >= 2 && v < 0
    ensures JsTruncate(bits, v) == Some(-KeepLeading(bits - 1, -v))
  {
    var w: nat := -v;
    var tail := SliceTo(Binary(w), bits - 1);
    NegativeCut(bits, v);
    SliceDigits(bits - 1, w);
    assert tail != [] && BinaryPrefix(tail) == tail;
    ParseNegative(tail);
  }

  /** Slicing the signed form keeps the sign and one digit fewer. */
  lemma NegativeCut(bits: nat, v: int)
    requires bits >= 2 && v < 0
    ensures SliceTo(JsToBinaryString(v), bits) == "-" + SliceTo(Binary(-v), bits - 1)
  {
    NegativeBinaryString(v);
    SliceSign(Binary(-v), bits);
  }

  /** A non-empty leading slice of the binary form is all digits, and denotes the kept leading bits. */
  lemma SliceDigits(k: nat, w: nat)
    requires k >= 1
    ensures SliceTo(Binary(w), k) != []
    ensures BinaryPrefix(SliceTo(Binary(w), k)) == SliceTo(Binary(w), k)
    ensures DigitsValue(SliceTo(Binary(w), k)) == KeepLeading(k, w)
  {
    var t := SliceTo(Binary(w), k);
    SliceValue(k, w);
    assert |Binary(w)| >= 1;
    assert forall i :: 0 <= i < |t| ==> IsBinaryDigit(t[i]);
    BinaryPrefixAll(t);
  }

  /** Below width 2 the source's expression can produce NaN. */
  lemma JsTruncateNaN(v: int)
    ensures JsTruncate(0, v) == None
    ensures v < 0 ==> JsTruncate(1, v) == None
  {
    assert SliceTo(JsToBinaryString(v), 0) == [];
    if v < 0 {
      assert SliceTo(JsToBinaryString(v), 1) == "-";
    }
  }

  /** The six register names of the machine (register.ts:1-2). */
  datatype RegisterName = ACC | CIR | IX | MAR | MDR | PC

  /** A named register of fixed width (register.ts:4-26). */
  class Register {
    const kind: RegisterName
    const bits: nat
    var value: int

    /** Every stored value is its own truncation. */
    ghost predicate Valid()
      reads this
    {
      bits >= 2 && Truncate(bits, value) == value
    }

    constructor (kind: RegisterName, bits: nat)
      requires bits >= 2
      ensures Valid()
      ensures this.kind == kind && this.bits == bits && value == 0
      ensures GetType() == kind && GetVal() == 0
    {
      this.kind := kind;
      this.value := 0;
      this.bits := bits;
    }

    method SetVal(v: int)
      requires Valid()
      modifies this
      ensures Valid()
      ensures value == Truncate(bits, v)
    {
      TruncateIdempotent(bits, v);
      value := Truncate(bits, v);
    }

    function GetVal(): (r: int)
      reads this
      requires Valid()
      ensures Truncate(bits, r) == r
    {
      value
    }

    function GetType(): RegisterName {
      kind
    }
  }
}
