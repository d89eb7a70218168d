/*
 * The generator's operator sequences on the simulator: each instruction
 * the generator emits for a C operator writes the value C expects, and
 * the two-instruction comparison and logical sequences leave C's truth
 * value 0 or 1 in the result register.
 */
module OperatorFacts {
  import opened Util
  import opened Machine
  import opened MachineFacts

  // ---------------------------------------------------------------------
  // Bitwise operations on truth values
  // ---------------------------------------------------------------------

  lemma {:induction false} ZeroBits(op: BitOp, n: nat)
    requires op.AndBits? || op.OrBits? || op.XorBits?
    ensures Bitwise(op, 0, 0, n) == 0
  {
    if n > 0 {
      ZeroBits(op, n - 1);
    }
  }

  /** On 0 and 1 the bitwise operators are the logical ones. */
  lemma TruthBits(op: BitOp, x: nat, y: nat, n: nat)
    requires x <= 1 && y <= 1 && n >= 1
    ensures Bitwise(op, x, y, n) == if CombineBits(op, x == 1, y == 1) then 1 else 0
  {
    ZeroBits(op, n - 1);
  }

  lemma XorTruth(a: nat, b: nat, k: nat)
    requires a <= 1 && b == 1 && k >= 1
    ensures Bitwise(XorBits, a, b, k) == 1 - a
  {
    TruthBits(XorBits, a, b, k);
  }

  lemma SmallUnsigned(a: int)
    requires 0 <= a <= 1
    ensures ToUint32(a) == a
  {
  }

  /** `^ 1` flips 0 and 1. */
  lemma FlipBit(a: int)
    requires 0 <= a <= 1
    ensures BitXor(a, 1) == 1 - a
  {
    SmallUnsigned(a);
    SmallUnsigned(1);
    XorTruth(a, 1, 32);
    ToInt32OfInt32(1 - a);
  }

  /** `|` of two 32-bit values is 0 exactly when both are. */
  lemma {:induction false} OrZero(x: nat, y: nat, n: nat)
    requires x < Pow2(n) && y < Pow2(n)
    ensures Bitwise(OrBits, x, y, n) == 0 <==> x == 0 && y == 0
  {
    if n > 0 {
      OrZero(x / 2, y / 2, n - 1);
    }
  }

  /** 2 and 1 have no bit in common. */
  lemma TwoAndOne(x: nat, y: nat)
    requires x == 2 && y == 1
    ensures Bitwise(AndBits, x, y, 32) == 0
  {
    ZeroBits(AndBits, 30);
  }

  // ---------------------------------------------------------------------
  // The operator sequences of the generator
  // ---------------------------------------------------------------------

  /** The opcodes of the generator's operator sequences, and the one it emits but the simulator lacks. */
  lemma Classify()
    ensures "sub" in ArithmeticOps && "sub" in RegisterOps
    ensures "slt" in LogicalOps && "slt" in RegisterOps
    ensures "sltu" in LogicalOps && "sltu" in RegisterOps
    ensures "sltiu" in LogicalOps && "sltiu" in RegisterOps
    ensures "xori" in LogicalOps && "xori" in RegisterOps
    ensures "and" in LogicalOps && "and" in RegisterOps
    ensures "or" in LogicalOps && "or" in RegisterOps
    ensures "nor" !in RegisterOps
  {
  }

  /** The immediate `1` of the generator reads as 1. */
  lemma ParseOne()
    ensures ParseInt("1") == Some(1)
  {
    ParseIntOfIntToString(1);
    assert IntToString(1) == "1";
  }

  lemma ArithmeticFamily(s: State, op: string, parts: seq<string>)
    requires |s.registers| == 32 && op in ArithmeticOps
    ensures RegisterValue(s, op, parts) == ArithmeticValue(s, op, parts)
  {
  }

  lemma LogicalFamily(s: State, op: string, parts: seq<string>)
    requires |s.registers| == 32 && op in LogicalOps
    ensures RegisterValue(s, op, parts) == LogicalValue(s, op, parts)
  {
    assert op !in ArithmeticOps;
  }

  /** The state after register `res` is written with `v`. */
  function Written(s: State, res: string, v: int): State
    requires |s.registers| == 32 && res in RegMap
  {
    s.(registers := s.registers[RegMap[res] := v])
  }

  /** An instruction of `RegisterOps` whose value is `v` writes `v | 0` to its first operand and changes nothing else. */
  lemma DispatchWrite(s: State, parts: seq<string>, v: int)
    requires |s.registers| == 32 && |parts| >= 2 && parts[0] in RegisterOps && parts[1] in RegMap && parts[1] != "$zero"
    requires RegisterValue(s, parts[0], parts) == Ok(Some(v))
    ensures Dispatch(s, parts) == Outcome(Written(s, parts[1], ToInt32(v)), None)
  {
    OnlyZeroIsZero(parts[1]);
    assert Arg(parts, 0) == Some(parts[0]) && Arg(parts, 1) == Some(parts[1]);
  }

  /** What the registers `res`, `l` and `r` of a generated operator sequence must be. */
  predicate Operands3(s: State, res: string, l: string, r: string)
  {
    |s.registers| == 32 && res in RegMap && res != "$zero" && l in RegMap && r in RegMap &&
    IsInt32(s.registers[RegMap[l]]) && IsInt32(s.registers[RegMap[r]])
  }

  /** An immediate operand `imm` that parses as `n`. */
  lemma ArgParses(parts: seq<string>, imm: string, n: int)
    requires |parts| == 4 && parts[3] == imm && ParseInt(imm) == Some(n)
    ensures ParseArg(parts, 3) == Some(n)
  {
  }

  // The value of each instruction the sequences use, for operands `parts[2]` and `parts[3]`.

  lemma SubValue(s: State, parts: seq<string>, l: string, r: string)
    requires |s.registers| == 32 && l in RegMap && r in RegMap
    requires |parts| == 4 && parts[2] == l && parts[3] == r
    ensures ArithmeticValue(s, "sub", parts) == Ok(Some(s.registers[RegMap[l]] - s.registers[RegMap[r]]))
  {
  }

  lemma SltValue(s: State, parts: seq<string>, l: string, r: string)
    requires |s.registers| == 32 && l in RegMap && r in RegMap
    requires |parts| == 4 && parts[2] == l && parts[3] == r
    ensures LogicalValue(s, "slt", parts) == Ok(Some(if s.registers[RegMap[l]] < s.registers[RegMap[r]] then 1 else 0))
  {
  }

  lemma SltuValue(s: State, parts: seq<string>, l: string, r: string)
    requires |s.registers| == 32 && l in RegMap && r in RegMap
    requires |parts| == 4 && parts[2] == l && parts[3] == r
    ensures LogicalValue(s, "sltu", parts) ==
      Ok(Some(if ToUint32(s.registers[RegMap[l]]) < ToUint32(s.registers[RegMap[r]]) then 1 else 0))
  {
  }

  lemma SltiuValue(s: State, parts: seq<string>, x: string, n: int)
    requires |s.registers| == 32 && x in RegMap && ParseArg(parts, 3) == Some(n)
    requires |parts| == 4 && parts[2] == x
    ensures LogicalValue(s, "sltiu", parts) == Ok(Some(if ToUint32(s.registers[RegMap[x]]) < n then 1 else 0))
  {
    var a := s.registers[RegMap[x]];
    assert GetReg(s.registers, Arg(parts, 2)) == Ok(a);
    assert "sltiu" != "xori";
    assert LogicalValue(s, "sltiu", parts) == Ok(Some(if ToUint32(a) < n then 1 else 0));
  }

  lemma XoriValue(s: State, parts: seq<string>, x: string, n: int)
    requires |s.registers| == 32 && x in RegMap && ParseArg(parts, 3) == Some(n)
    requires |parts| == 4 && parts[2] == x
    ensures LogicalValue(s, "xori", parts) == Ok(Some(BitXor(s.registers[RegMap[x]], ToInt32(n))))
  {
  }

  lemma AndValue(s: State, parts: seq<string>, l: string, r: string)
    requires |s.registers| == 32 && l in RegMap && r in RegMap
    requires |parts| == 4 && parts[2] == l && parts[3] == r
    ensures LogicalValue(s, "and", parts) == Ok(Some(BitAnd(s.registers[RegMap[l]], s.registers[RegMap[r]])))
  {
  }

  lemma OrValue(s: State, parts: seq<string>, l: string, r: string)
    requires |s.registers| == 32 && l in RegMap && r in RegMap
    requires |parts| == 4 && parts[2] == l && parts[3] == r
    ensures LogicalValue(s, "or", parts) == Ok(Some(BitOr(s.registers[RegMap[l]], s.registers[RegMap[r]])))
  {
  }

  /** A 32-bit value is 0 exactly when its unsigned reading is, and 0 reads as 0. */
  lemma UnsignedZero(a: int)
    requires IsInt32(a)
    ensures (ToUint32(a) < 1) == (a == 0) && (ToUint32(0) < ToUint32(a)) == (a != 0)
  {
  }

  /** `sub res, l, r` writes the 32-bit difference. */
  lemma DispatchSub(s: State, res: string, l: string, r: string)
    requires Operands3(s, res, l, r)
    ensures Dispatch(s, ["sub", res, l, r]) ==
      Outcome(Written(s, res, ToInt32(s.registers[RegMap[l]] - s.registers[RegMap[r]])), None)
  {
    var parts := ["sub", res, l, r];
    Classify();
    SubValue(s, parts, l, r);
    ArithmeticFamily(s, "sub", parts);
    DispatchWrite(s, parts, s.registers[RegMap[l]] - s.registers[RegMap[r]]);
  }

  /** `slt res, l, r` writes 1 when `l` is less than `r`, else 0. */
  lemma DispatchSlt(s: State, res: string, l: string, r: string)
    requires Operands3(s, res, l, r)
    ensures Dispatch(s, ["slt", res, l, r]) ==
      Outcome(Written(s, res, if s.registers[RegMap[l]] < s.registers[RegMap[r]] then 1 else 0), None)
  {
    var parts := ["slt", res, l, r];
    var v := if s.registers[RegMap[l]] < s.registers[RegMap[r]] then 1 else 0;
    Classify();
    SltValue(s, parts, l, r);
    LogicalFamily(s, "slt", parts);
    ToInt32OfInt32(v);
    DispatchWrite(s, parts, v);
  }

  /** `sltu res, $zero, x` writes 1 when `x` is not 0, else 0. */
  lemma DispatchNonZero(s: State, res: string, x: string)
    requires Operands3(s, res, "$zero", x) && s.registers[0] == 0
    ensures Dispatch(s, ["sltu", res, "$zero", x]) ==
      Outcome(Written(s, res, if s.registers[RegMap[x]] != 0 then 1 else 0), None)
  {
    var parts := ["sltu", res, "$zero", x];
    var a := s.registers[RegMap[x]];
    var v := if a != 0 then 1 else 0;
    Classify();
    NonZeroValue(s, parts, x);
    LogicalFamily(s, "sltu", parts);
    ToInt32OfInt32(v);
    DispatchWrite(s, parts, v);
  }

  lemma NonZeroValue(s: State, parts: seq<string>, x: string)
    requires |s.registers| == 32 && x in RegMap && IsInt32(s.registers[RegMap[x]]) && s.registers[0] == 0
    requires |parts| == 4 && parts[2] == "$zero" && parts[3] == x
    ensures LogicalValue(s, "sltu", parts) == Ok(Some(if s.registers[RegMap[x]] != 0 then 1 else 0))
  {
    SltuValue(s, parts, "$zero", x);
    UnsignedZero(s.registers[RegMap[x]]);
  }

  /** `sltiu res, x, 1` writes 1 when `x` is 0, else 0. */
  lemma DispatchIsZero(s: State, res: string, x: string, one: string)
    requires Operands3(s, res, x, x) && ParseInt(one) == Some(1)
    ensures Dispatch(s, ["sltiu", res, x, one]) ==
      Outcome(Written(s, res, if s.registers[RegMap[x]] == 0 then 1 else 0), None)
  {
    var parts := ["sltiu", res, x, one];
    var a := s.registers[RegMap[x]];
    var v := if a == 0 then 1 else 0;
    Classify();
    ArgParses(parts, one, 1);
    SltiuValue(s, parts, x, 1);
    UnsignedZero(a);
    LogicalFamily(s, "sltiu", parts);
    ToInt32OfInt32(v);
    DispatchWrite(s, parts, v);
  }

  /** `xori res, x, 1` flips a truth value. */
  lemma DispatchFlip(s: State, res: string, x: string, one: string)
    requires Operands3(s, res, x, x) && ParseInt(one) == Some(1) && 0 <= s.registers[RegMap[x]] <= 1
    ensures Dispatch(s, ["xori", res, x, one]) == Outcome(Written(s, res, 1 - s.registers[RegMap[x]]), None)
  {
    var parts := ["xori", res, x, one];
    var a := s.registers[RegMap[x]];
    Classify();
    ToInt32OfInt32(1);
    ArgParses(parts, one, 1);
    XoriValue(s, parts, x, 1);
    FlipBit(a);
    LogicalFamily(s, "xori", parts);
    ToInt32OfInt32(1 - a);
    DispatchWrite(s, parts, 1 - a);
  }

  /** `and res, l, r` writes the bitwise and. */
  lemma DispatchAnd(s: State, res: string, l: string, r: string)
    requires Operands3(s, res, l, r)
    ensures Dispatch(s, ["and", res, l, r]) ==
      Outcome(Written(s, res, BitAnd(s.registers[RegMap[l]], s.registers[RegMap[r]])), None)
  {
    var parts := ["and", res, l, r];
    var v := BitAnd(s.registers[RegMap[l]], s.registers[RegMap[r]]);
    Classify();
    AndValue(s, parts, l, r);
    LogicalFamily(s, "and", parts);
    ToInt32OfInt32(v);
    DispatchWrite(s, parts, v);
  }

  /** `or res, l, r` writes the bitwise or. */
  lemma DispatchOr(s: State, res: string, l: string, r: string)
    requires Operands3(s, res, l, r)
    ensures Dispatch(s, ["or", res, l, r]) ==
      Outcome(Written(s, res, BitOr(s.registers[RegMap[l]], s.registers[RegMap[r]])), None)
  {
    var parts := ["or", res, l, r];
    var v := BitOr(s.registers[RegMap[l]], s.registers[RegMap[r]]);
    Classify();
    OrValue(s, parts, l, r);
    LogicalFamily(s, "or", parts);
    ToInt32OfInt32(v);
    DispatchWrite(s, parts, v);
  }

  // ---------------------------------------------------------------------
  // Two-instruction sequences
  // ---------------------------------------------------------------------

  /** The 32-bit difference of two 32-bit values is 0 exactly when they are equal. */
  lemma WrappedDifference(a: int, b: int)
    requires IsInt32(a) && IsInt32(b)
    ensures ToInt32(a - b) == 0 <==> a == b
  {
    if ToInt32(a - b) == 0 {
      assert (0 - (a - b)) % TWO32 == 0;
    }
  }

  /** The truth values `sltiu` and `sltu` compute from the difference are those of `==` and `!=`. */
  lemma EqualTest(a: int, b: int)
    requires IsInt32(a) && IsInt32(b)
    ensures (if ToInt32(a - b) == 0 then 1 else 0) == (if a == b then 1 else 0)
    ensures (if ToInt32(a - b) != 0 then 1 else 0) == (if a != b then 1 else 0)
  {
    WrappedDifference(a, b);
  }

  /** Writing `res` twice keeps the second value. */
  lemma WrittenTwice(s: State, res: string, v: int, w: int)
    requires |s.registers| == 32 && res in RegMap
    ensures Written(Written(s, res, v), res, w) == Written(s, res, w)
  {
  }

  /** After a write to `res`, `res` holds a 32-bit value and `$zero` still reads 0. */
  lemma WrittenOperands(s: State, res: string, v: int)
    requires |s.registers| == 32 && res in RegMap && res != "$zero" && s.registers[0] == 0 && IsInt32(v)
    ensures Operands3(Written(s, res, v), res, res, res)
    ensures Operands3(Written(s, res, v), res, "$zero", res) && Written(s, res, v).registers[0] == 0
    ensures Written(s, res, v).registers[RegMap[res]] == v
  {
    OnlyZeroIsZero(res);
  }

  /** `sltiu res, res, 1` after `res` was written with `d`: 1 when `d` is 0, else 0. */
  lemma IsZeroAfterWrite(s: State, res: string, d: int)
    requires |s.registers| == 32 && res in RegMap && res != "$zero" && s.registers[0] == 0 && IsInt32(d)
    ensures Dispatch(Written(s, res, d), ["sltiu", res, res, "1"]) == Outcome(Written(s, res, if d == 0 then 1 else 0), None)
  {
    ParseOne();
    WrittenOperands(s, res, d);
    DispatchIsZero(Written(s, res, d), res, res, "1");
    WrittenTwice(s, res, d, if d == 0 then 1 else 0);
  }

  /** `sltu res, $zero, res` after `res` was written with `d`: 1 when `d` is not 0, else 0. */
  lemma NonZeroAfterWrite(s: State, res: string, d: int)
    requires |s.registers| == 32 && res in RegMap && res != "$zero" && s.registers[0] == 0 && IsInt32(d)
    ensures Dispatch(Written(s, res, d), ["sltu", res, "$zero", res]) == Outcome(Written(s, res, if d != 0 then 1 else 0), None)
  {
    WrittenOperands(s, res, d);
    DispatchNonZero(Written(s, res, d), res, res);
    WrittenTwice(s, res, d, if d != 0 then 1 else 0);
  }

  /** `xori res, res, 1` after `res` was written with a truth value `c`: `1 - c`. */
  lemma FlipAfterWrite(s: State, res: string, c: int)
    requires |s.registers| == 32 && res in RegMap && res != "$zero" && s.registers[0] == 0 && 0 <= c <= 1
    ensures Dispatch(Written(s, res, c), ["xori", res, res, "1"]) == Outcome(Written(s, res, 1 - c), None)
  {
    ParseOne();
    WrittenOperands(s, res, c);
    DispatchFlip(Written(s, res, c), res, res, "1");
    WrittenTwice(s, res, c, 1 - c);
  }

  /** `==`: `sub` then `sltiu res, res, 1` leaves 1 in `res` when the operands are equal, else 0. */
  lemma EqualitySequence(s: State, res: string, l: string, r: string)
    requires Operands3(s, res, l, r) && s.registers[0] == 0
    ensures var o := Dispatch(s, ["sub", res, l, r]);
      o.fault == None &&
      Dispatch(o.state, ["sltiu", res, res, "1"]) ==
        Outcome(Written(s, res, if s.registers[RegMap[l]] == s.registers[RegMap[r]] then 1 else 0), None)
  {
    var a, b := s.registers[RegMap[l]], s.registers[RegMap[r]];
    var d := ToInt32(a - b);
    var o := Dispatch(s, ["sub", res, l, r]);
    DispatchSub(s, res, l, r);
    assert o.state == Written(s, res, d) && o.fault == None;
    IsZeroAfterWrite(s, res, d);
    EqualTest(a, b);
  }

  /** `!=`: `sub` then `sltu res, $zero, res` leaves 1 in `res` when the operands differ, else 0. */
  lemma InequalitySequence(s: State, res: string, l: string, r: string)
    requires Operands3(s, res, l, r) && s.registers[0] == 0
    ensures var o := Dispatch(s, ["sub", res, l, r]);
      o.fault == None &&
      Dispatch(o.state, ["sltu", res, "$zero", res]) ==
        Outcome(Written(s, res, if s.registers[RegMap[l]] != s.registers[RegMap[r]] then 1 else 0), None)
  {
    var a, b := s.registers[RegMap[l]], s.registers[RegMap[r]];
    var d := ToInt32(a - b);
    var o := Dispatch(s, ["sub", res, l, r]);
    DispatchSub(s, res, l, r);
    assert o.state == Written(s, res, d) && o.fault == None;
    NonZeroAfterWrite(s, res, d);
    EqualTest(a, b);
  }

  /** `<=`: `slt res, r, l` then `xori res, res, 1` leaves 1 in `res` when `l <= r`, else 0. */
  lemma AtMostSequence(s: State, res: string, l: string, r: string)
    requires Operands3(s, res, l, r) && s.registers[0] == 0
    ensures var o := Dispatch(s, ["slt", res, r, l]);
      o.fault == None &&
      Dispatch(o.state, ["xori", res, res, "1"]) ==
        Outcome(Written(s, res, if s.registers[RegMap[l]] <= s.registers[RegMap[r]] then 1 else 0), None)
  {
    var a, b := s.registers[RegMap[l]], s.registers[RegMap[r]];
    DispatchSlt(s, res, r, l);
    FlipAfterWrite(s, res, if b < a then 1 else 0);
  }

  /** `>=`: `slt res, l, r` then `xori res, res, 1` leaves 1 in `res` when `l >= r`, else 0. */
  lemma AtLeastSequence(s: State, res: string, l: string, r: string)
    requires Operands3(s, res, l, r) && s.registers[0] == 0
    ensures var o := Dispatch(s, ["slt", res, l, r]);
      o.fault == None &&
      Dispatch(o.state, ["xori", res, res, "1"]) ==
        Outcome(Written(s, res, if s.registers[RegMap[l]] >= s.registers[RegMap[r]] then 1 else 0), None)
  {
    var a, b := s.registers[RegMap[l]], s.registers[RegMap[r]];
    DispatchSlt(s, res, l, r);
    FlipAfterWrite(s, res, if a < b then 1 else 0);
  }

  lemma {:induction false} Pow2Sum(a: nat, b: nat)
    ensures Pow2(a + b) == Pow2(a) * Pow2(b)
    decreases a
  {
    if a > 0 {
      Pow2Sum(a - 1, b);
      assert a + b - 1 == (a - 1) + b;
    }
  }

  /** 32 bits span the unsigned 32-bit range. */
  lemma WordSpan()
    ensures Pow2(32) == TWO32
  {
    assert Pow2(8) == 256;
    Pow2Sum(8, 8);
    Pow2Sum(16, 16);
  }

  /** A value of the unsigned 32-bit range is 0 exactly when its signed reading is. */
  lemma SignedZero(w: int)
    requires 0 <= w < TWO32
    ensures ToInt32(w) == 0 <==> w == 0
  {
  }

  lemma OrWord(x: nat, y: nat, k: nat)
    requires x < TWO32 && y < TWO32 && Pow2(k) == TWO32
    ensures Bitwise(OrBits, x, y, k) == 0 <==> x == 0 && y == 0
  {
    OrZero(x, y, k);
  }

  /** `a | b` of two 32-bit values is 0 exactly when both are 0. */
  lemma OrOfWords(a: int, b: int)
    requires IsInt32(a) && IsInt32(b)
    ensures BitOr(a, b) == 0 <==> a == 0 && b == 0
  {
    var x, y := ToUint32(a), ToUint32(b);
    WordSpan();
    OrWord(x, y, 32);
    SignedZero(Bitwise(OrBits, x, y, 32));
    UnsignedZero(a);
    UnsignedZero(b);
  }

  /** On truth values 0 and 1, `&` is C's `&&`. */
  lemma AndTruth(a: int, b: int)
    requires 0 <= a <= 1 && 0 <= b <= 1
    ensures BitAnd(a, b) == if a == 1 && b == 1 then 1 else 0
  {
    SmallUnsigned(a);
    SmallUnsigned(b);
    TruthBits(AndBits, a, b, 32);
    ToInt32OfInt32(if a == 1 && b == 1 then 1 else 0);
  }

  /** `2 & 1` is 0. */
  lemma AndOfTwoAndOne(a: int, b: int)
    requires a == 2 && b == 1
    ensures BitAnd(a, b) == 0
  {
    SmallUnsignedTwo(a);
    SmallUnsigned(b);
    TwoAndOne(a, b);
    ToInt32OfInt32(0);
  }

  lemma SmallUnsignedTwo(a: int)
    requires a == 2
    ensures ToUint32(a) == a
  {
  }

  /** `||`: `or` then `sltu res, $zero, res` leaves 1 in `res` when either operand is not 0, else 0. */
  lemma OrSequence(s: State, res: string, l: string, r: string)
    requires Operands3(s, res, l, r) && s.registers[0] == 0
    ensures var o := Dispatch(s, ["or", res, l, r]);
      o.fault == None &&
      Dispatch(o.state, ["sltu", res, "$zero", res]) ==
        Outcome(Written(s, res, if s.registers[RegMap[l]] != 0 || s.registers[RegMap[r]] != 0 then 1 else 0), None)
  {
    var a, b := s.registers[RegMap[l]], s.registers[RegMap[r]];
    var d := BitOr(a, b);
    var o := Dispatch(s, ["or", res, l, r]);
    DispatchOr(s, res, l, r);
    ToInt32OfInt32(d);
    assert o.state == Written(s, res, d) && o.fault == None;
    NonZeroAfterWrite(s, res, d);
    OrOfWords(a, b);
  }

  /** `&&` on truth values: `and` then `sltu res, $zero, res` leaves 1 in `res` when both operands are 1, else 0. */
  lemma AndSequence(s: State, res: string, l: string, r: string)
    requires Operands3(s, res, l, r) && s.registers[0] == 0
    requires 0 <= s.registers[RegMap[l]] <= 1 && 0 <= s.registers[RegMap[r]] <= 1
    ensures var o := Dispatch(s, ["and", res, l, r]);
      o.fault == None &&
      Dispatch(o.state, ["sltu", res, "$zero", res]) ==
        Outcome(Written(s, res, if s.registers[RegMap[l]] == 1 && s.registers[RegMap[r]] == 1 then 1 else 0), None)
  {
    var a, b := s.registers[RegMap[l]], s.registers[RegMap[r]];
    var d := BitAnd(a, b);
    var o := Dispatch(s, ["and", res, l, r]);
    DispatchAnd(s, res, l, r);
    ToInt32OfInt32(d);
    assert o.state == Written(s, res, d) && o.fault == None;
    NonZeroAfterWrite(s, res, d);
    AndTruth(a, b);
  }

  /**
   * `&&` on operands 2 and 1, both true in C: the `and` sequence leaves 0
   * in `res`, because the two values share no bit.
   */
  lemma AndSequenceOnTwoAndOne(s: State, res: string, l: string, r: string)
    requires Operands3(s, res, l, r) && s.registers[0] == 0
    requires s.registers[RegMap[l]] == 2 && s.registers[RegMap[r]] == 1
    ensures var o := Dispatch(s, ["and", res, l, r]);
      o.fault == None &&
      Dispatch(o.state, ["sltu", res, "$zero", res]) == Outcome(Written(s, res, 0), None)
  {
    var a, b := s.registers[RegMap[l]], s.registers[RegMap[r]];
    var o := Dispatch(s, ["and", res, l, r]);
    DispatchAnd(s, res, l, r);
    AndOfTwoAndOne(a, b);
    ToInt32OfInt32(0);
    assert o.state == Written(s, res, 0) && o.fault == None;
    NonZeroAfterWrite(s, res, 0);
  }

  /** Unary `!`: `sltiu res, o, 1` writes 1 when `o` is 0, else 0. */
  lemma NotInstruction(s: State, res: string, x: string)
    requires Operands3(s, res, x, x)
    ensures Dispatch(s, ["sltiu", res, x, "1"]) ==
      Outcome(Written(s, res, if s.registers[RegMap[x]] == 0 then 1 else 0), None)
  {
    ParseOne();
    DispatchIsZero(s, res, x, "1");
  }

  /** Unary `-`: `sub res, $zero, o` writes the 32-bit negation. */
  lemma NegateInstruction(s: State, res: string, x: string)
    requires Operands3(s, res, "$zero", x) && s.registers[0] == 0
    ensures Dispatch(s, ["sub", res, "$zero", x]) == Outcome(Written(s, res, ToInt32(-s.registers[RegMap[x]])), None)
  {
    DispatchSub(s, res, "$zero", x);
  }

  /** Unary `~` emits `nor`, which the simulator does not know: the line changes nothing. */
  lemma NorIgnored(s: State, res: string, x: string)
    requires |s.registers| == 32
    ensures Dispatch(s, ["nor", res, x, "$zero"]) == Outcome(s, None)
  {
    Classify();
  }
}
