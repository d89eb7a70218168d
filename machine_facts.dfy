/*
 * What the simulator guarantees: the register file keeps `$zero` and
 * 32-bit values, memory round-trips words and strings, instruction lines
 * split into the fields the generator wrote, jumps land on their labels,
 * the comparison sequences of the generator compute C's truth values, the
 * run loop stops only in the ways `execute` allows, and loading places
 * the generated globals where the generator expects them.
 */
module MachineFacts {
  import opened Util
  import opened Machine

  // ---------------------------------------------------------------------
  // Registers
  // ---------------------------------------------------------------------

  /** Register 0 is the only one named `$zero`. */
  lemma OnlyZeroIsZero(name: string)
    requires name in RegMap
    ensures RegMap[name] == 0 <==> name == "$zero"
  {
  }

  /**
   * `setReg` then `getReg` of the same register gives the value cut to 32
   * bits, and leaves every other register as it was.
   */
  lemma WriteThenRead(regs: seq<int>, name: string, v: Option<int>, other: string)
    requires |regs| == 32 && name in RegMap && name != "$zero" && other in RegMap
    ensures SetReg(regs, Some(name), v).Ok?
    ensures GetReg(SetReg(regs, Some(name), v).value, Some(name)) == Ok(Int32Of(v))
    ensures IsInt32(Int32Of(v))
    ensures RegMap[other] != RegMap[name] ==>
      GetReg(SetReg(regs, Some(name), v).value, Some(other)) == GetReg(regs, Some(other))
  {
    OnlyZeroIsZero(name);
  }

  /** Writing `$zero` changes nothing. */
  lemma ZeroIgnoresWrites(regs: seq<int>, v: Option<int>)
    requires |regs| == 32
    ensures SetReg(regs, Some("$zero"), v) == Ok(regs)
  {
  }

  /** A name that is not a register throws, on reads and on writes alike. */
  lemma UnknownRegisterThrows(regs: seq<int>, name: Option<string>, v: Option<int>)
    requires |regs| == 32 && (name.None? || name.value !in RegMap)
    ensures GetReg(regs, name) == Err(UnknownRegister(name))
    ensures SetReg(regs, name, v) == Err(UnknownRegister(name))
  {
  }

  /** A write keeps register 0 at 0 and every register a 32-bit value. */
  lemma WriteKeepsRegisters(regs: seq<int>, name: Option<string>, v: Option<int>)
    requires |regs| == 32 && regs[0] == 0 && forall i :: 0 <= i < 32 ==> IsInt32(regs[i])
    ensures var r := SetReg(regs, name, v);
      r.Ok? ==> r.value[0] == 0 && forall i :: 0 <= i < 32 ==> IsInt32(r.value[i])
  {
  }

  // ---------------------------------------------------------------------
  // Memory
  // ---------------------------------------------------------------------

  /** A number is its four bytes, lowest first, plus a multiple of 2^32. */
  lemma ByteDecomposition(w: int)
    ensures w == w % 0x100 + ((w / 0x100) % 0x100) * 0x100 + ((w / 0x1_0000) % 0x100) * 0x1_0000 +
                 ((w / 0x100_0000) % 0x100) * 0x100_0000 + (w / 0x1_0000_0000) * 0x1_0000_0000
  {
    var q1 := w / 0x100;
    var q2 := q1 / 0x100;
    var q3 := q2 / 0x100;
    var q4 := q3 / 0x100;
    assert w == q1 * 0x100 + w % 0x100;
    assert q1 == q2 * 0x100 + q1 % 0x100;
    assert q2 == q3 * 0x100 + q2 % 0x100;
    assert q3 == q4 * 0x100 + q3 % 0x100;
    assert q2 == w / 0x1_0000;
    assert q3 == w / 0x100_0000;
    assert q4 == w / 0x1_0000_0000;
  }

  /** Two numbers that agree modulo 2^32 have the same 32-bit value. */
  lemma SameResidue(x: int, w: int)
    requires IsInt32(w) && (x - w) % TWO32 == 0
    ensures ToInt32(x) == w
  {
  }

  /** `loadWord` reads back what `storeWord` wrote, as a signed 32-bit value. */
  lemma WordRoundTrip(mem: map<int, int>, a: int, v: int)
    ensures LoadWord(StoreWord(mem, a, v), a) == ToInt32(v)
  {
    var w := ToInt32(v);
    var m := StoreWord(mem, a, v);
    assert LoadByte(m, a) == w % 0x100;
    assert LoadByte(m, a + 1) == (w / 0x100) % 0x100;
    assert LoadByte(m, a + 2) == (w / 0x1_0000) % 0x100;
    assert LoadByte(m, a + 3) == (w / 0x100_0000) % 0x100;
    ByteDecomposition(w);
    var sum := LoadByte(m, a) + LoadByte(m, a + 1) * 0x100 + LoadByte(m, a + 2) * 0x1_0000 +
               LoadByte(m, a + 3) * 0x100_0000;
    assert sum == w - (w / 0x1_0000_0000) * 0x1_0000_0000;
    SameResidue(sum, w);
  }

  /**
   * `storeWord` is little-endian: the lowest byte of the value goes to the
   * lowest address, all four are bytes, and no other address changes.
   */
  lemma WordLittleEndian(mem: map<int, int>, a: int, v: int, b: int)
    ensures LoadByte(StoreWord(mem, a, v), a) == v % 0x100
    ensures a <= b <= a + 3 ==> 0 <= LoadByte(StoreWord(mem, a, v), b) < 0x100
    ensures (b < a || a + 3 < b) ==> LoadByte(StoreWord(mem, a, v), b) == LoadByte(mem, b)
  {
    var w := ToInt32(v);
    var q := (w - v) / TWO32;
    assert w == v + 0x100 * (q * 0x100_0000);
    ShiftResidue(v, q * 0x100_0000);
  }

  lemma ShiftResidue(v: int, q: int)
    ensures (v + 0x100 * q) % 0x100 == v % 0x100
  {
  }

  /** `loadByte` reads back what `storeByte` wrote, reduced to a byte. */
  lemma ByteRoundTrip(mem: map<int, int>, a: int, v: int, b: int)
    ensures LoadByte(StoreByte(mem, a, v), a) == v % 256 && 0 <= v % 256 < 256
    ensures b != a ==> LoadByte(StoreByte(mem, a, v), b) == LoadByte(mem, b)
  {
  }

  // ---------------------------------------------------------------------
  // Strings in memory: `.asciiz` then syscall 4
  // ---------------------------------------------------------------------

  /** `StoreChars` only writes at and above its start address. */
  lemma {:induction false} StoreCharsBelow(mem: map<int, int>, a: int, t: string, b: int)
    requires b < a
    ensures LoadByte(StoreChars(mem, a, t), b) == LoadByte(mem, b)
    decreases |t|
  {
    if t != [] {
      StoreCharsBelow(StoreByte(mem, a, CharCodeAt(t[0])), a + 1, t[1..], b);
    }
  }

  /** The characters of an `.asciiz` string: bytes, none of them the terminator. */
  predicate IsByteText(t: string)
  {
    forall k :: 0 <= k < |t| ==> 0 < t[k] as int < 256
  }

  /**
   * A string stored with its terminator reads back, code unit for code
   * unit, as the string, when the read limit covers it.
   */
  lemma {:induction false} StringRoundTrip(mem: map<int, int>, a: int, t: string, n: nat)
    requires IsByteText(t) && |t| <= n
    ensures StringAt(StoreChars(mem, a, t), a, n) == Units(t)
    decreases |t|
  {
    if t != [] {
      var m1 := StoreByte(mem, a, CharCodeAt(t[0]));
      StoreCharsBelow(m1, a + 1, t[1..], a);
      assert LoadByte(StoreChars(mem, a, t), a) == t[0] as int;
      StringRoundTrip(m1, a + 1, t[1..], n - 1);
      assert Units(t) == [t[0] as int] + Units(t[1..]);
    }
  }

  /** Syscall 4 on a stored string of at most 1000 characters prints exactly that string. */
  lemma PrintStoredString(s: State, t: string, mem: map<int, int>)
    requires |s.registers| == 32 && s.registers[2] == 4
    requires s.memory == StoreChars(mem, s.registers[4], t) && IsByteText(t) && |t| <= MaxStringChars
    ensures Syscall(s).output == s.output + Units(t)
  {
    StringRoundTrip(mem, s.registers[4], t, MaxStringChars);
  }

  /** Syscall 1 prints the decimal text of `$a0`, which reads back as `$a0`. */
  lemma PrintIntReadsBack(s: State)
    requires |s.registers| == 32 && s.registers[2] == 1
    ensures exists t :: Syscall(s).output == s.output + Units(t) && ParseInt(t) == Some(s.registers[4])
  {
    var t := IntToString(s.registers[4]);
    ParseIntOfIntToString(s.registers[4]);
    assert Syscall(s).output == s.output + Units(t);
  }

  /** Syscall 10 stops the machine and a code without a meaning changes nothing. */
  lemma SyscallCodes(s: State)
    requires |s.registers| == 32
    ensures s.registers[2] == 10 ==> Syscall(s) == s.(running := false)
    ensures s.registers[2] !in {1, 4, 5, 10, 11, 12} ==> Syscall(s) == s
    ensures s.registers[2] in {5, 12} ==> Syscall(s).registers == s.registers[2 := 0]
  {
  }

  // ---------------------------------------------------------------------
  // Division
  // ---------------------------------------------------------------------

  /**
   * `div`: `lo` is the quotient rounded down and `hi` the remainder with
   * the sign of the dividend, so `lo * b + hi` gives the dividend back,
   * except when the remainder is non-zero and the operands differ in sign:
   * then it is off by the divisor. A zero divisor changes nothing.
   */
  lemma DivideLoHi(s: State, parts: seq<string>, a: int, b: int)
    requires |s.registers| == 32
    requires GetReg(s.registers, Arg(parts, 1)) == Ok(a) && GetReg(s.registers, Arg(parts, 2)) == Ok(b)
    ensures Divide(s, parts).Ok?
    ensures b == 0 ==> Divide(s, parts).value == s
    ensures b != 0 ==> Divide(s, parts).value == s.(lo := FloorDiv(a, b), hi := JsRem(a, b))
    ensures b != 0 && (JsRem(a, b) == 0 || (a < 0) == (b < 0)) ==> FloorDiv(a, b) * b + JsRem(a, b) == a
    ensures b != 0 && JsRem(a, b) != 0 && (a < 0) != (b < 0) ==> FloorDiv(a, b) * b + JsRem(a, b) == a - b
  {
    if b != 0 {
      FloorAndRemainder(a, b);
    }
  }

  /**
   * The floored quotient and the truncated remainder recombine to the
   * dividend, unless the remainder is non-zero and the operands differ in
   * sign: then the quotient is one less than the truncated one, and they
   * recombine to the dividend minus the divisor.
   */
  lemma FloorAndRemainder(a: int, b: int)
    requires b != 0
    ensures JsRem(a, b) == 0 || (a < 0) == (b < 0) ==> FloorDiv(a, b) * b + JsRem(a, b) == a
    ensures JsRem(a, b) != 0 && (a < 0) != (b < 0) ==> FloorDiv(a, b) * b + JsRem(a, b) == a - b
  {
    if b > 0 {
      PositiveDivisor(a, b);
    } else {
      PositiveDivisor(-a, -b);
      FloorNegate(a, b);
      assert JsRem(-a, -b) == -JsRem(a, b);
      assert FloorDiv(a, b) * (-b) == -(FloorDiv(a, b) * b);
    }
  }

  /** The case of a positive divisor. */
  lemma PositiveDivisor(a: int, b: int)
    requires b > 0
    ensures JsRem(a, b) == 0 || a >= 0 ==> FloorDiv(a, b) * b + JsRem(a, b) == a
    ensures JsRem(a, b) != 0 && a < 0 ==> FloorDiv(a, b) * b + JsRem(a, b) == a - b
  {
    var q := a / b;
    var r := a % b;
    assert a == q * b + r && 0 <= r < b;
    if a < 0 {
      var m := -a;
      assert JsRem(a, b) == -(m % b);
      if r == 0 {
        assert m == (-q) * b + 0;
        DivisionUnique(m, -q, b, 0);
      } else {
        assert m == (-q - 1) * b + (b - r);
        DivisionUnique(m, -q - 1, b, b - r);
      }
    }
  }

  /** `Math.floor(a / b)` does not change when both operands change sign. */
  lemma FloorNegate(a: int, b: int)
    requires b != 0
    ensures FloorDiv(-a, -b) == FloorDiv(a, b)
  {
    var q := FloorDiv(a, b);
    var q' := FloorDiv(-a, -b);
    var d := q - q';
    assert q' * (-b) == -(q' * b) && q * (-b) == -(q * b);
    assert d * b == q * b - q' * b;
    if d != 0 {
      MultipleAway(d, b);
    }
  }

  // ---------------------------------------------------------------------
  // Instruction lines
  // ---------------------------------------------------------------------

  /** No memory operand and no comment can start in the text. */
  predicate Clean(t: string)
  {
    forall k :: 0 <= k < |t| ==> t[k] != '(' && t[k] != '#'
  }

  /** A field of an instruction line: a register, a label, a number or an opcode. */
  predicate IsToken(t: string)
  {
    t != [] && Clean(t) && forall k :: 0 <= k < |t| ==> !IsSeparator(t[k])
  }

  predicate AllTokens(xs: seq<string>)
  {
    forall i :: 0 <= i < |xs| ==> IsToken(xs[i])
  }

  /** The spaces the generator puts after an opcode. */
  predicate IsPadding(p: string)
  {
    p != [] && forall k :: 0 <= k < |p| ==> p[k] == ' '
  }

  /** The operands, separated by a comma and a space. */
  function Operands(xs: seq<string>): string
    decreases |xs|
  {
    if xs == [] then "" else if |xs| == 1 then xs[0] else xs[0] + ", " + Operands(xs[1..])
  }

  /** A trimmed instruction line as the generator writes it: the opcode, padding, the operands. */
  function Line(op: string, pad: string, xs: seq<string>): string
  {
    if xs == [] then op else op + pad + Operands(xs)
  }

  /** Leading separators are skipped. */
  lemma {:induction false} FieldsSkip(gap: string, rest: string)
    requires forall k :: 0 <= k < |gap| ==> IsSeparator(gap[k])
    ensures Fields(gap + rest) == Fields(rest)
    decreases |gap|
  {
    if gap != [] {
      assert (gap + rest)[0] == gap[0] && (gap + rest)[1..] == gap[1..] + rest;
      FieldsSkip(gap[1..], rest);
    } else {
      assert gap + rest == rest;
    }
  }

  /** A run of non-separators followed by a separator is the first field. */
  lemma FieldsFirst(f: string, gap: string, rest: string)
    requires f != [] && forall k :: 0 <= k < |f| ==> !IsSeparator(f[k])
    requires gap != [] && forall k :: 0 <= k < |gap| ==> IsSeparator(gap[k])
    ensures Fields(f + gap + rest) == [f] + Fields(rest)
  {
    var s := f + gap + rest;
    assert s[|f|] == gap[0];
    assert FieldEnd(s, 0) == |f|;
    assert s[..|f|] == f && s[|f|..] == gap + rest;
    FieldsSkip(gap, rest);
  }

  /** A token alone is one field. */
  lemma FieldsOne(f: string)
    requires IsToken(f)
    ensures Fields(f) == [f]
  {
    assert FieldEnd(f, 0) == |f|;
    assert f[..|f|] == f;
  }

  /** The operand list splits back into its operands, and has no memory operand or comment. */
  lemma {:induction false} OperandsFields(xs: seq<string>)
    requires xs != [] && AllTokens(xs)
    ensures var o := Operands(xs);
      Fields(o) == xs && Clean(o) && o != [] && !IsSeparator(o[0]) && !IsSeparator(o[|o| - 1])
    decreases |xs|
  {
    if |xs| == 1 {
      FieldsOne(xs[0]);
    } else {
      var rest := Operands(xs[1..]);
      OperandsFields(xs[1..]);
      FieldsFirst(xs[0], ", ", rest);
      assert Operands(xs) == xs[0] + ", " + rest;
      assert [xs[0]] + xs[1..] == xs;
    }
  }

  /**
   * A generated line splits into its opcode and operands, has no memory
   * operand and no comment, and is its own comment-stripped text.
   */
  lemma LineParses(op: string, pad: string, xs: seq<string>)
    requires IsToken(op) && IsPadding(pad) && AllTokens(xs)
    ensures ParseInstruction(Line(op, pad, xs)) == [op] + xs
    ensures StripComment(Line(op, pad, xs)) == Line(op, pad, xs)
  {
    var l := Line(op, pad, xs);
    LineFields(op, pad, xs);
    assert '(' !in l;
    LineUntrimmed(l);
  }

  /** The fields of a generated line, and the characters at its two ends. */
  lemma LineFields(op: string, pad: string, xs: seq<string>)
    requires IsToken(op) && IsPadding(pad) && AllTokens(xs)
    ensures var l := Line(op, pad, xs);
      Fields(l) == [op] + xs && Clean(l) && l != [] && !IsSeparator(l[0]) && !IsSeparator(l[|l| - 1])
  {
    var l := Line(op, pad, xs);
    if xs == [] {
      FieldsOne(op);
    } else {
      var o := Operands(xs);
      OperandsFields(xs);
      FieldsFirst(op, pad, o);
      assert l[|l| - 1] == o[|o| - 1];
    }
    assert Clean(l);
  }

  /** A clean text that starts and ends with a field character is its own comment-stripped text. */
  lemma LineUntrimmed(l: string)
    requires Clean(l) && l != [] && !IsSeparator(l[0]) && !IsSeparator(l[|l| - 1])
    ensures StripComment(l) == l
  {
    assert '#' !in l;
    SplitNone(l, '#');
    assert TrimStart(l) == l;
    assert TrimEnd(l) == l;
  }

  // ---------------------------------------------------------------------
  // Control flow
  // ---------------------------------------------------------------------

  /** The entry at pc is the generated line `op pad xs`. */
  predicate At(s: State, op: string, pad: string, xs: seq<string>)
  {
    0 <= s.pc < |s.instructions| && s.instructions[s.pc] == Instruction(Line(op, pad, xs)) &&
    IsToken(op) && IsPadding(pad) && AllTokens(xs)
  }

  /**
   * `step` on a generated line runs the instruction its fields name: on
   * success pc moves one past where the instruction left it, on failure
   * the message is prefixed with the line and the state is the one the
   * instruction left.
   */
  lemma StepLine(s: State, op: string, pad: string, xs: seq<string>)
    requires |s.registers| == 32 && At(s, op, pad, xs)
    ensures var d := Dispatch(s, [op] + xs);
      (d.fault.None? ==> Step(s) == Outcome(Advance(d.state, Line(op, pad, xs)), None)) &&
      (d.fault.Some? ==> Step(s) == Outcome(d.state, Some(Executing(Line(op, pad, xs), d.fault.value))))
  {
    LineParses(op, pad, xs);
    LineFields(op, pad, xs);
    StepClean(s, Line(op, pad, xs), [op] + xs);
  }

  /** `step` on an instruction without a comment runs the opcode its fields name. */
  lemma StepClean(s: State, c: string, f: seq<string>)
    requires |s.registers| == 32 && 0 <= s.pc < |s.instructions| && s.instructions[s.pc] == Instruction(c)
    requires c != [] && StripComment(c) == c && ParseInstruction(c) == f
    ensures var d := Dispatch(s, f);
      (d.fault.None? ==> Step(s) == Outcome(Advance(d.state, c), None)) &&
      (d.fault.Some? ==> Step(s) == Outcome(d.state, Some(Executing(c, d.fault.value))))
  {
    assert SkipLabels(s.instructions, s.pc) == s.pc;
    assert s.(pc := s.pc) == s;
  }

  /** The opcode `j`: pc to one before the marker, or the lookup's error. */
  lemma DispatchJump(s: State, target: string)
    requires |s.registers| == 32
    ensures var r := FindLabel(s.instructions, Some(target));
      Dispatch(s, ["j", target]) == if r.Ok? then Outcome(s.(pc := r.value - 1), None) else Outcome(s, Some(r.msg))
  {
  }

  /** The opcode `jal`: `$ra` first, then the jump. */
  lemma DispatchCall(s: State, target: string)
    requires |s.registers| == 32
    ensures var r := FindLabel(s.instructions, Some(target));
      var t := s.(registers := s.registers[31 := ToInt32(s.pc + 1)]);
      Dispatch(s, ["jal", target]) == if r.Ok? then Outcome(t.(pc := r.value - 1), None) else Outcome(t, Some(r.msg))
  {
    assert "jal" !in RegisterOps;
  }

  /** The opcode `jr $ra`. */
  lemma DispatchReturn(s: State)
    requires |s.registers| == 32
    ensures Dispatch(s, ["jr", "$ra"]) == Outcome(s.(pc := s.registers[31] - 1), None)
  {
  }

  /** The opcodes `beq` and `bne` on two registers. */
  lemma DispatchBranch(s: State, op: string, x: string, y: string, target: string)
    requires |s.registers| == 32 && (op == "beq" || op == "bne") && x in RegMap && y in RegMap
    ensures var taken := (s.registers[RegMap[x]] == s.registers[RegMap[y]]) == (op == "beq");
      var r := FindLabel(s.instructions, Some(target));
      Dispatch(s, [op, x, y, target]) ==
        if !taken then Outcome(s, None)
        else if r.Ok? then Outcome(s.(pc := r.value - 1), None) else Outcome(s, Some(r.msg))
  {
    var parts := [op, x, y, target];
    assert op !in RegisterOps;
    assert Dispatch(s, parts) == Lift(s, Branch(s, op, parts));
    BranchOnRegisters(s, op, x, y, target);
  }

  lemma BranchOnRegisters(s: State, op: string, x: string, y: string, target: string)
    requires |s.registers| == 32 && (op == "beq" || op == "bne") && x in RegMap && y in RegMap
    ensures var taken := (s.registers[RegMap[x]] == s.registers[RegMap[y]]) == (op == "beq");
      var r := FindLabel(s.instructions, Some(target));
      Branch(s, op, [op, x, y, target]) ==
        if !taken then Ok(s) else if r.Ok? then Ok(s.(pc := r.value - 1)) else Err(r.msg)
  {
    var parts := [op, x, y, target];
    assert Arg(parts, 1) == Some(x) && Arg(parts, 2) == Some(y) && Arg(parts, 3) == Some(target);
  }

  /** `j L` lands on the marker of `L`, and throws, changing nothing, when there is none. */
  lemma JumpLandsOnLabel(s: State, pad: string, target: string)
    requires |s.registers| == 32 && At(s, "j", pad, [target])
    ensures var r := FindLabel(s.instructions, Some(target));
      (r.Ok? ==> Step(s).fault.None? && Step(s).state.pc == r.value && s.instructions[r.value] == Label(target) &&
                 Step(s).state.registers == s.registers && Step(s).state.memory == s.memory) &&
      (r.Err? ==> Step(s) == Outcome(s, Some(Executing(Line("j", pad, [target]), LabelNotFound(Some(target))))))
  {
    assert ["j"] + [target] == ["j", target];
    StepLine(s, "j", pad, [target]);
    DispatchJump(s, target);
  }

  /** `jal L` writes the address of the next entry to `$ra`, even when `L` is missing, and lands on `L`. */
  lemma CallSetsReturnAddress(s: State, pad: string, target: string)
    requires |s.registers| == 32 && At(s, "jal", pad, [target])
    ensures Step(s).state.registers == s.registers[31 := ToInt32(s.pc + 1)]
    ensures var r := FindLabel(s.instructions, Some(target));
      (r.Ok? ==> Step(s).fault.None? && Step(s).state.pc == r.value && s.instructions[r.value] == Label(target)) &&
      (r.Err? ==> Step(s).fault == Some(Executing(Line("jal", pad, [target]), LabelNotFound(Some(target)))))
  {
    assert ["jal"] + [target] == ["jal", target];
    StepLine(s, "jal", pad, [target]);
    DispatchCall(s, target);
  }

  /** `jr $ra` continues at the entry `$ra` holds. */
  lemma ReturnJumps(s: State, pad: string)
    requires |s.registers| == 32 && At(s, "jr", pad, ["$ra"])
    ensures Step(s).fault.None? && Step(s).state.pc == s.registers[31]
    ensures Step(s).state.registers == s.registers && Step(s).state.memory == s.memory
  {
    assert ["jr"] + ["$ra"] == ["jr", "$ra"];
    StepLine(s, "jr", pad, ["$ra"]);
    DispatchReturn(s);
  }
  /**
   * A call returns: when a `jr $ra` is reached with `$ra` as the `jal`
   * left it, execution continues at the entry after the `jal`.
   */
  lemma CallReturns(s: State, u: State, pad: string, target: string, pad2: string)
    requires |s.registers| == 32 && At(s, "jal", pad, [target]) && |s.instructions| < TWO31
    requires |u.registers| == 32 && At(u, "jr", pad2, ["$ra"])
    requires u.registers[31] == Step(s).state.registers[31]
    ensures Step(u).fault.None? && Step(u).state.pc == s.pc + 1
  {
    CallSetsReturnAddress(s, pad, target);
    ReturnJumps(u, pad2);
    ToInt32OfInt32(s.pc + 1);
  }

  /**
   * `beq x, y, L` and `bne x, y, L`: when the condition holds, execution
   * continues at the marker of `L`; otherwise at the next entry.
   */
  lemma BranchLands(s: State, op: string, pad: string, x: string, y: string, target: string)
    requires op == "beq" || op == "bne"
    requires |s.registers| == 32 && At(s, op, pad, [x, y, target])
    requires x in RegMap && y in RegMap
    ensures var taken := (s.registers[RegMap[x]] == s.registers[RegMap[y]]) == (op == "beq");
      var r := FindLabel(s.instructions, Some(target));
      (!taken ==> Step(s).fault.None? && Step(s).state.pc == s.pc + 1) &&
      (taken && r.Ok? ==> Step(s).fault.None? && Step(s).state.pc == r.value && s.instructions[r.value] == Label(target)) &&
      (taken && r.Err? ==> Step(s).fault == Some(Executing(Line(op, pad, [x, y, target]), LabelNotFound(Some(target)))))
  {
    assert [op] + [x, y, target] == [op, x, y, target];
    StepLine(s, op, pad, [x, y, target]);
    DispatchBranch(s, op, x, y, target);
  }
}
