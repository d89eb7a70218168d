/*
 * The MIPS simulator as functions on a value: the 32-entry register file,
 * the sparse byte memory, the data labels, the instruction list with its
 * label markers, the program counter, `lo`/`hi`, the running flag, the
 * output, the step count and the trace. An operation that can throw
 * returns the message it throws, together with the state it leaves
 * behind (a `jal` to a missing label has already written `$ra`).
 *
 * JavaScript numbers are modelled as integers; `NaN` (what `parseInt`
 * gives for text without digits) is `None` where it can occur.
 */
module Machine {
  import opened Util

  const StackTop: int := 0x7FFF_FFFC
  const DataBase: int := 0x1000_0000
  const MaxInstructions: nat := 10000
  const MaxStringChars: nat := 1000

  type RegNum = i: int | 0 <= i < 32

  /** The register names in register order. */
  const RegNames: seq<string> :=
    ["$zero", "$at", "$v0", "$v1", "$a0", "$a1", "$a2", "$a3",
     "$t0", "$t1", "$t2", "$t3", "$t4", "$t5", "$t6", "$t7",
     "$s0", "$s1", "$s2", "$s3", "$s4", "$s5", "$s6", "$s7",
     "$t8", "$t9", "$k0", "$k1", "$gp", "$sp", "$fp", "$ra"]

  /** `regMap`: register name to register number. */
  const RegMap: map<string, RegNum> :=
    map["$zero" := 0, "$at" := 1, "$v0" := 2, "$v1" := 3,
        "$a0" := 4, "$a1" := 5, "$a2" := 6, "$a3" := 7,
        "$t0" := 8, "$t1" := 9, "$t2" := 10, "$t3" := 11,
        "$t4" := 12, "$t5" := 13, "$t6" := 14, "$t7" := 15,
        "$s0" := 16, "$s1" := 17, "$s2" := 18, "$s3" := 19,
        "$s4" := 20, "$s5" := 21, "$s6" := 22, "$s7" := 23,
        "$t8" := 24, "$t9" := 25, "$k0" := 26, "$k1" := 27,
        "$gp" := 28, "$sp" := 29, "$fp" := 30, "$ra" := 31]

  /** An entry of the instruction list: a label marker or the text of an instruction line. */
  datatype Entry = Label(name: string) | Instruction(code: string)

  /** What `step` records after each instruction: the pc, the line, and the registers by name. */
  datatype TraceEntry = TraceEntry(pc: int, instruction: string, registers: map<string, int>)

  /**
   * The simulator's fields. `output` is the concatenation of the pieces the
   * source pushes (it is only ever read joined), as UTF-16 code units; a
   * data label maps to an address, or to `None` for `NaN`.
   */
  datatype State = State(registers: seq<int>, memory: map<int, int>, dataSegment: map<string, Option<int>>,
                         pc: int, instructions: seq<Entry>, running: bool, output: seq<int>,
                         executed: nat, lo: int, hi: int, trace: seq<TraceEntry>)

  /** The state after an operation, and the message it threw, if any. */
  datatype Outcome = Outcome(state: State, fault: Option<string>)

  /** What holds of every state the simulator reaches. */
  ghost predicate Valid(s: State)
  {
    |s.registers| == 32 && s.registers[0] == 0 &&
    (forall i :: 0 <= i < 32 ==> IsInt32(s.registers[i])) &&
    (forall a :: a in s.memory ==> 0 <= s.memory[a] < 256)
  }

  function InitialRegisters(): (regs: seq<int>)
    ensures |regs| == 32
  {
    seq(32, i => if i == 29 then StackTop else 0)
  }

  /** `reset`: all registers 0 but `$sp`, nothing loaded, not running. */
  const Initial: State := State(InitialRegisters(), map[], map[], 0, [], false, [], 0, 0, 0, [])

  // ---------------------------------------------------------------------
  // Registers
  // ---------------------------------------------------------------------

  /** How a name reads in a message: a missing operand prints as `undefined`. */
  function Shown(name: Option<string>): string
  {
    match name
    case None => "undefined"
    case Some(n) => n
  }

  function UnknownRegister(name: Option<string>): string
  {
    "Unknown register: " + Shown(name)
  }

  /** `value | 0`, where `NaN` gives 0. */
  function Int32Of(value: Option<int>): int
  {
    match value
    case None => 0
    case Some(v) => ToInt32(v)
  }

  /** `getReg`. */
  function GetReg(regs: seq<int>, name: Option<string>): Result<int>
    requires |regs| == 32
  {
    if name.Some? && name.value in RegMap then Ok(regs[RegMap[name.value]]) else Err(UnknownRegister(name))
  }

  /** `setReg`: an unknown name throws, `$zero` is left alone, any other register gets `value | 0`. */
  function SetReg(regs: seq<int>, name: Option<string>, value: Option<int>): (r: Result<seq<int>>)
    requires |regs| == 32
    ensures r.Ok? ==> |r.value| == 32
  {
    if name.Some? && name.value in RegMap then
      var i := RegMap[name.value];
      if i == 0 then Ok(regs) else Ok(regs[i := Int32Of(value)])
    else Err(UnknownRegister(name))
  }

  /** `getRegisterState`: every register by name. */
  function RegisterState(regs: seq<int>): map<string, int>
    requires |regs| == 32
  {
    map name | name in RegMap :: regs[RegMap[name]]
  }

  // ---------------------------------------------------------------------
  // Memory: bytes at integer addresses, absent bytes read as 0
  // ---------------------------------------------------------------------

  /** `loadByte`. */
  function LoadByte(mem: map<int, int>, a: int): int
  {
    if a in mem then mem[a] else 0
  }

  /** `storeByte`: `value & 0xFF`, which is the value modulo 256. */
  function StoreByte(mem: map<int, int>, a: int, v: int): map<int, int>
  {
    mem[a := v % 256]
  }

  /**
   * `storeWord`: the four bytes of the 32-bit value, lowest first. On a
   * 32-bit value `value >> 8k` is division by 2^(8k) rounded down, and
   * `& 0xFF` is the remainder modulo 256.
   */
  function StoreWord(mem: map<int, int>, a: int, v: int): map<int, int>
  {
    var w := ToInt32(v);
    mem[a := w % 0x100][a + 1 := (w / 0x100) % 0x100][a + 2 := (w / 0x1_0000) % 0x100][a + 3 := (w / 0x100_0000) % 0x100]
  }

  /**
   * `loadWord`: the four bytes, lowest first, shifted into place and or-ed
   * together as a signed 32-bit value. Memory holds bytes, so the shifted
   * bytes do not overlap and their or is their sum.
   */
  function LoadWord(mem: map<int, int>, a: int): int
  {
    ToInt32(LoadByte(mem, a) + LoadByte(mem, a + 1) * 0x100 + LoadByte(mem, a + 2) * 0x1_0000 +
            LoadByte(mem, a + 3) * 0x100_0000)
  }

  /** `getMemoryState`: the bytes that are not 0. */
  function MemoryState(mem: map<int, int>): map<int, int>
  {
    map a | a in mem && mem[a] != 0 :: mem[a]
  }

  // ---------------------------------------------------------------------
  // Scanning instruction text (the regular expressions of the source)
  // ---------------------------------------------------------------------

  /** The class `\w`. */
  predicate IsWordChar(c: char) { IsLetter(c) || IsDigit(c) || c == '_' }

  /** The end of the run of word characters starting at `i`. */
  function WordEnd(s: string, i: nat): (j: nat)
    requires i <= |s|
    ensures i <= j <= |s|
    ensures forall k :: i <= k < j ==> IsWordChar(s[k])
    ensures j < |s| ==> !IsWordChar(s[j])
    decreases |s| - i
  {
    if i < |s| && IsWordChar(s[i]) then WordEnd(s, i + 1) else i
  }

  /** The end of the run of decimal digits starting at `i`. */
  function DigitEnd(s: string, i: nat): (j: nat)
    requires i <= |s|
    ensures i <= j <= |s|
    ensures forall k :: i <= k < j ==> IsDigit(s[k])
    ensures j < |s| ==> !IsDigit(s[j])
    decreases |s| - i
  {
    if i < |s| && IsDigit(s[i]) then DigitEnd(s, i + 1) else i
  }

  /** The end of the run of white space starting at `i`. */
  function SpaceEnd(s: string, i: nat): (j: nat)
    requires i <= |s|
    ensures i <= j <= |s|
    ensures forall k :: i <= k < j ==> IsJsSpace(s[k])
    ensures j < |s| ==> !IsJsSpace(s[j])
    decreases |s| - i
  {
    if i < |s| && IsJsSpace(s[i]) then SpaceEnd(s, i + 1) else i
  }

  /** A memory operand `offset($base)`: the offset text and value, and the base register. */
  datatype MemRef = MemRef(text: string, offset: int, base: string)

  /**
   * `/(-?\d+)\((\$\w+)\)/` tried at `i`. Each part must take its whole
   * run of characters, since the character after it may not be of its
   * class; the offset is what `parseInt` reads from the matched text.
   */
  function OperandAt(s: string, i: nat): (m: Option<MemRef>)
    requires i <= |s|
    ensures m.Some? ==> '(' in s
  {
    var d := if i < |s| && s[i] == '-' then i + 1 else i;
    var e := DigitEnd(s, d);
    if e == d || e + 1 >= |s| || s[e] != '(' || s[e + 1] != '$' then None
    else
      var w := WordEnd(s, e + 2);
      if w == e + 2 || w >= |s| || s[w] != ')' then None
      else
        var magnitude: int := DigitsValue(s[d..e], 10);
        Some(MemRef(s[i..e], if d == i then magnitude else -magnitude, s[e + 1..w]))
  }

  /** The leftmost match of the operand pattern at or after `i`. */
  function FindOperand(s: string, i: nat): (m: Option<MemRef>)
    requires i <= |s|
    ensures m.Some? ==> '(' in s
    decreases |s| - i
  {
    var here := OperandAt(s, i);
    if here.Some? then here else if i == |s| then None else FindOperand(s, i + 1)
  }

  /**
   * `/(\w+)\s+(\$\w+),\s*(-?\d+)\((\$\w+)\)/` tried at `i`: the parts
   * `[op, register, "offset(base)"]` it produces.
   */
  function MemFormAt(s: string, i: nat): (p: Option<seq<string>>)
    requires i <= |s|
    ensures p.Some? ==> '(' in s
  {
    var w := WordEnd(s, i);
    var sp := SpaceEnd(s, w);
    if w == i || sp == w || sp >= |s| || s[sp] != '$' then None
    else
      var r := WordEnd(s, sp + 1);
      if r == sp + 1 || r >= |s| || s[r] != ',' then None
      else
        match OperandAt(s, SpaceEnd(s, r + 1))
        case None => None
        case Some(m) => Some([s[i..w], s[sp..r], m.text + "(" + m.base + ")"])
  }

  /** The leftmost match of the memory-instruction pattern at or after `i`. */
  function FindMemForm(s: string, i: nat): (p: Option<seq<string>>)
    requires i <= |s|
    ensures p.Some? ==> '(' in s
    decreases |s| - i
  {
    var here := MemFormAt(s, i);
    if here.Some? then here else if i == |s| then None else FindMemForm(s, i + 1)
  }

  /** The class `[\s,]`. */
  predicate IsSeparator(c: char) { IsJsSpace(c) || c == ',' }

  /** The end of the run of characters that are not separators, starting at `i`. */
  function FieldEnd(s: string, i: nat): (j: nat)
    requires i <= |s|
    ensures i <= j <= |s|
    ensures forall k :: i <= k < j ==> !IsSeparator(s[k])
    ensures j < |s| ==> IsSeparator(s[j])
    decreases |s| - i
  {
    if i < |s| && !IsSeparator(s[i]) then FieldEnd(s, i + 1) else i
  }

  /** `s.split(/[\s,]+/).filter(p => p)`: the maximal runs of non-separators. */
  function Fields(s: string): (parts: seq<string>)
    ensures forall k :: 0 <= k < |parts| ==> parts[k] != []
    decreases |s|
  {
    if s == [] then []
    else if IsSeparator(s[0]) then Fields(s[1..])
    else
      var j := FieldEnd(s, 0);
      [s[..j]] + Fields(s[j..])
  }

  /** `parseInstruction`: the memory form when it matches anywhere, the fields otherwise. */
  function ParseInstruction(code: string): seq<string>
  {
    match FindMemForm(code, 0)
    case Some(parts) => parts
    case None => Fields(code)
  }

  // ---------------------------------------------------------------------
  // Operands
  // ---------------------------------------------------------------------

  /** `parts[i]`, which is `undefined` past the end. */
  function Arg(parts: seq<string>, i: nat): Option<string>
  {
    if i < |parts| then Some(parts[i]) else None
  }

  /** `parseInt(parts[i])`; `parseInt(undefined)` is `NaN`. */
  function ParseArg(parts: seq<string>, i: nat): Option<int>
  {
    ParseInt(Shown(Arg(parts, i)))
  }

  /** A data-label value tested as a condition: `NaN` and 0 are false. */
  predicate Truthy(v: Option<int>)
  {
    v.Some? && v.value != 0
  }

  /** The message of the `TypeError` a property read on `undefined` throws. */
  function ReadOfUndefined(property: string): string
  {
    "Cannot read properties " + "of undefined (reading '" + property + "')"
  }

  /** `parseMemoryOperand`: `offset($r)` anywhere in the text, else a true data label, else 0. */
  function MemoryOperand(s: State, operand: Option<string>): Result<int>
    requires |s.registers| == 32
  {
    match operand
    case None => Err(ReadOfUndefined("match"))
    case Some(op) =>
      match FindOperand(op, 0)
      case Some(m) =>
        var b :- GetReg(s.registers, Some(m.base));
        Ok(b + m.offset)
      case None =>
        if op in s.dataSegment && Truthy(s.dataSegment[op]) then Ok(s.dataSegment[op].value) else Ok(0)
  }

  function LabelNotFound(target: Option<string>): string
  {
    "Label '" + Shown(target) + "' not found"
  }

  /** The entry is the marker of `target`. */
  predicate Marks(e: Entry, target: Option<string>)
  {
    e.Label? && target == Some(e.name)
  }

  /** `findLabel`, searching from index `i`: the first marker of the label. */
  function FindLabelFrom(instrs: seq<Entry>, target: Option<string>, i: nat): (r: Result<int>)
    requires i <= |instrs|
    ensures r.Ok? ==> i <= r.value < |instrs| && Marks(instrs[r.value], target)
    ensures r.Ok? ==> forall j :: i <= j < r.value ==> !Marks(instrs[j], target)
    ensures r.Err? <==> forall j :: i <= j < |instrs| ==> !Marks(instrs[j], target)
    ensures r.Err? ==> r.msg == LabelNotFound(target)
    decreases |instrs| - i
  {
    if i == |instrs| then Err(LabelNotFound(target))
    else if Marks(instrs[i], target) then Ok(i)
    else FindLabelFrom(instrs, target, i + 1)
  }

  function FindLabel(instrs: seq<Entry>, target: Option<string>): Result<int>
  {
    FindLabelFrom(instrs, target, 0)
  }

  // ---------------------------------------------------------------------
  // Instructions
  // ---------------------------------------------------------------------

  /** The instructions whose whole effect is `setReg(parts[1], value)`. */
  const RegisterOps: set<string> :=
    {"add", "addi", "sub", "mul", "mflo", "mfhi", "and", "or", "xor", "xori", "slt", "sltu", "sltiu",
     "sll", "sllv", "srl", "srlv", "lw", "lb", "la", "li", "move"}

  const ArithmeticOps: set<string> := {"add", "addi", "sub", "mul", "mflo", "mfhi"}
  const LogicalOps: set<string> := {"and", "or", "xor", "xori", "slt", "sltu", "sltiu"}
  const ShiftOps: set<string> := {"sll", "sllv", "srl", "srlv"}

  /** The value an arithmetic instruction writes; `NaN` from a bad immediate is `None`. */
  function ArithmeticValue(s: State, op: string, parts: seq<string>): Result<Option<int>>
    requires |s.registers| == 32
  {
    if op == "mflo" then Ok(Some(s.lo))
    else if op == "mfhi" then Ok(Some(s.hi))
    else
      var a :- GetReg(s.registers, Arg(parts, 2));
      if op == "addi" then
        match ParseArg(parts, 3)
        case None => Ok(None)
        case Some(n) => Ok(Some(a + n))
      else
        var b :- GetReg(s.registers, Arg(parts, 3));
        Ok(Some(if op == "add" then a + b else if op == "sub" then a - b else a * b))
  }

  /** The value a logical or comparison instruction writes. */
  function LogicalValue(s: State, op: string, parts: seq<string>): Result<Option<int>>
    requires |s.registers| == 32
  {
    var a :- GetReg(s.registers, Arg(parts, 2));
    if op == "xori" then
      Ok(Some(BitXor(a, Int32Of(ParseArg(parts, 3)))))
    else if op == "sltiu" then
      Ok(Some(match ParseArg(parts, 3)
              case None => 0
              case Some(n) => if ToUint32(a) < n then 1 else 0))
    else
      var b :- GetReg(s.registers, Arg(parts, 3));
      Ok(Some(if op == "and" then BitAnd(a, b)
              else if op == "or" then BitOr(a, b)
              else if op == "xor" then BitXor(a, b)
              else if op == "slt" then (if a < b then 1 else 0)
              else if ToUint32(a) < ToUint32(b) then 1 else 0))
  }

  /** The value a shift writes: the amount of an immediate shift is `NaN`-as-0. */
  function ShiftValue(s: State, op: string, parts: seq<string>): Result<Option<int>>
    requires |s.registers| == 32
  {
    var a :- GetReg(s.registers, Arg(parts, 2));
    var n :- if op == "sll" || op == "srl" then Ok(Int32Of(ParseArg(parts, 3))) else GetReg(s.registers, Arg(parts, 3));
    Ok(Some(if op == "sll" || op == "sllv" then ShiftLeft(a, n) else ShiftRightLogical(a, n)))
  }

  /** The value a load, `la`, `li` or `move` writes. */
  function TransferValue(s: State, op: string, parts: seq<string>): Result<Option<int>>
    requires |s.registers| == 32
  {
    if op == "lw" || op == "lb" then
      var addr :- MemoryOperand(s, Arg(parts, 2));
      Ok(Some(if op == "lw" then LoadWord(s.memory, addr) else LoadByte(s.memory, addr)))
    else if op == "la" then
      var key := Shown(Arg(parts, 2));
      Ok(Some(if key in s.dataSegment && Truthy(s.dataSegment[key]) then s.dataSegment[key].value else 0))
    else if op == "li" then Ok(ParseArg(parts, 2))
    else
      var v :- GetReg(s.registers, Arg(parts, 2));
      Ok(Some(v))
  }

  /** The value an instruction of `RegisterOps` writes. */
  function RegisterValue(s: State, op: string, parts: seq<string>): Result<Option<int>>
    requires |s.registers| == 32
  {
    if op in ArithmeticOps then ArithmeticValue(s, op, parts)
    else if op in LogicalOps then LogicalValue(s, op, parts)
    else if op in ShiftOps then ShiftValue(s, op, parts)
    else TransferValue(s, op, parts)
  }

  /** An instruction of `RegisterOps`: its value is computed first, then written. */
  function WriteRegister(s: State, op: string, parts: seq<string>): (r: Result<State>)
    requires |s.registers| == 32
    ensures r.Ok? ==> SameProgram(s, r.value)
  {
    var v :- RegisterValue(s, op, parts);
    var regs :- SetReg(s.registers, Arg(parts, 1), v);
    Ok(s.(registers := regs))
  }

  /** `div`: `lo` is the quotient rounded down, `hi` the remainder with the dividend's sign. */
  function Divide(s: State, parts: seq<string>): (r: Result<State>)
    requires |s.registers| == 32
    ensures r.Ok? ==> SameProgram(s, r.value)
  {
    var a :- GetReg(s.registers, Arg(parts, 1));
    var b :- GetReg(s.registers, Arg(parts, 2));
    if b != 0 then Ok(s.(lo := FloorDiv(a, b), hi := JsRem(a, b))) else Ok(s)
  }

  /** `sw` and `sb`: the address is worked out before the register is read. */
  function Store(s: State, op: string, parts: seq<string>): (r: Result<State>)
    requires |s.registers| == 32
    ensures r.Ok? ==> SameProgram(s, r.value)
  {
    var addr :- MemoryOperand(s, Arg(parts, 2));
    var v :- GetReg(s.registers, Arg(parts, 1));
    Ok(s.(memory := if op == "sw" then StoreWord(s.memory, addr, v) else StoreByte(s.memory, addr, v)))
  }

  /** `beq`, `bne`, `j` and `jr`: a jump sets pc one before its target, for the increment of `step`. */
  function Branch(s: State, op: string, parts: seq<string>): (r: Result<State>)
    requires |s.registers| == 32
    ensures r.Ok? ==> SameProgram(s, r.value)
  {
    if op == "j" then
      var k :- FindLabel(s.instructions, Arg(parts, 1));
      Ok(s.(pc := k - 1))
    else if op == "jr" then
      var v :- GetReg(s.registers, Arg(parts, 1));
      Ok(s.(pc := v - 1))
    else
      var a :- GetReg(s.registers, Arg(parts, 1));
      var b :- GetReg(s.registers, Arg(parts, 2));
      if (a == b) == (op == "beq") then
        var k :- FindLabel(s.instructions, Arg(parts, 3));
        Ok(s.(pc := k - 1))
      else Ok(s)
  }

  /** `jal`: `$ra` is written before the label is looked up, so it stays written if the lookup throws. */
  function JumpAndLink(s: State, parts: seq<string>): (o: Outcome)
    requires |s.registers| == 32
    ensures SameProgram(s, o.state)
  {
    var t := s.(registers := s.registers[31 := ToInt32(s.pc + 1)]);
    match FindLabel(s.instructions, Arg(parts, 1))
    case Ok(k) => Outcome(t.(pc := k - 1), None)
    case Err(m) => Outcome(t, Some(m))
  }

  /** `String.fromCharCode`: the UTF-16 code unit of a number. */
  function CodeUnit(n: int): int
  {
    n % 0x1_0000
  }

  /** The code units of a text of characters from the Basic Multilingual Plane. */
  function Units(t: string): (u: seq<int>)
    ensures |u| == |t|
  {
    seq(|t|, i requires 0 <= i < |t| => t[i] as int)
  }

  /** Syscall 4: the bytes from `a` up to a 0 byte, at most `n` of them. */
  function StringAt(mem: map<int, int>, a: int, n: nat): (u: seq<int>)
    ensures |u| <= n
    decreases n
  {
    if n == 0 || LoadByte(mem, a) == 0 then [] else [CodeUnit(LoadByte(mem, a))] + StringAt(mem, a + 1, n - 1)
  }

  /** `handleSyscall`, on the code in `$v0`; an unknown code changes nothing. */
  function Syscall(s: State): (t: State)
    requires |s.registers| == 32
    ensures SameProgram(s, t)
  {
    var code := s.registers[2];
    if code == 1 then s.(output := s.output + Units(IntToString(s.registers[4])))
    else if code == 4 then s.(output := s.output + StringAt(s.memory, s.registers[4], MaxStringChars))
    else if code == 5 || code == 12 then s.(registers := s.registers[2 := 0])
    else if code == 10 then s.(running := false)
    else if code == 11 then s.(output := s.output + [CodeUnit(s.registers[4])])
    else s
  }

  function Lift(s: State, r: Result<State>): Outcome
  {
    match r
    case Ok(t) => Outcome(t, None)
    case Err(m) => Outcome(s, Some(m))
  }

  /** The switch of `executeInstruction` on the opcode; an unknown opcode only warns. */
  function Dispatch(s: State, parts: seq<string>): (o: Outcome)
    requires |s.registers| == 32
    ensures SameProgram(s, o.state)
  {
    var op := Shown(Arg(parts, 0));
    if op in RegisterOps then Lift(s, WriteRegister(s, op, parts))
    else if op == "div" then Lift(s, Divide(s, parts))
    else if op == "sw" || op == "sb" then Lift(s, Store(s, op, parts))
    else if op == "beq" || op == "bne" || op == "j" || op == "jr" then Lift(s, Branch(s, op, parts))
    else if op == "jal" then JumpAndLink(s, parts)
    else if op == "syscall" then Outcome(Syscall(s), None)
    else Outcome(s, None)
  }

  function Executing(code: string, message: string): string
  {
    "Error executing '" + code + "': " + message
  }

  /** The text of a line before any `#`, trimmed. */
  function StripComment(code: string): string
  {
    Trim(Split(code, '#')[0])
  }

  /**
   * `executeInstruction`: the line without its comment; nothing for an
   * empty line; otherwise the instruction, with any message it throws
   * prefixed by the line.
   */
  function ExecuteInstruction(s: State, code: string): (o: Outcome)
    requires |s.registers| == 32
    ensures SameProgram(s, o.state)
  {
    var c := StripComment(code);
    if c == [] then Outcome(s, None)
    else
      var o := Dispatch(s, ParseInstruction(c));
      match o.fault
      case None => o
      case Some(m) => Outcome(o.state, Some(Executing(c, m)))
  }

  // ---------------------------------------------------------------------
  // Stepping and running
  // ---------------------------------------------------------------------

  /** An instruction changes neither the program nor the data labels nor the step count. */
  ghost predicate SameProgram(s: State, t: State)
  {
    t.instructions == s.instructions && t.dataSegment == s.dataSegment && t.executed == s.executed &&
    |t.registers| == |s.registers|
  }

  /** Where `step` arrives after skipping the label markers from `pc` on. */
  function SkipLabels(instrs: seq<Entry>, pc: int): (q: int)
    ensures q >= pc && (q == pc || 0 <= pc)
    ensures 0 <= q < |instrs| ==> instrs[q].Instruction?
    ensures forall i | pc <= i < q :: 0 <= i < |instrs| && instrs[i].Label?
    decreases |instrs| - pc
  {
    if 0 <= pc < |instrs| && instrs[pc].Label? then SkipLabels(instrs, pc + 1) else pc
  }

  /**
   * `step`: label markers are skipped (each moves pc on and steps again);
   * past the end the machine stops; an instruction is executed, recorded
   * in the trace, and pc moves on. A negative pc reads an `undefined`
   * entry and throws.
   */
  function Step(s: State): (o: Outcome)
    requires |s.registers| == 32
    ensures SameProgram(s, o.state)
  {
    var at := SkipLabels(s.instructions, s.pc);
    if at >= |s.instructions| then Outcome(s.(pc := at, running := false), None)
    else if at < 0 then Outcome(s, Some(ReadOfUndefined("type")))
    else
      var code := s.instructions[at].code;
      var o := ExecuteInstruction(s.(pc := at), code);
      if o.fault.Some? then o else Outcome(Advance(o.state, code), None)
  }

  /** After an instruction: the line and the registers are recorded in the trace, and pc moves on. */
  function Advance(t: State, code: string): (u: State)
    requires |t.registers| == 32
    ensures u == t.(trace := u.trace, pc := t.pc + 1) && |u.trace| == |t.trace| + 1
  {
    t.(trace := t.trace + [TraceEntry(t.pc, code, RegisterState(t.registers))], pc := t.pc + 1)
  }

  function LimitExceeded(): string
  {
    "Execution limit exceeded " + "(possible infinite loop)"
  }

  /** `instructionsExecuted++`. */
  function Counted(t: State): (u: State)
    ensures u.executed == t.executed + 1
  {
    t.(executed := t.executed + 1)
  }

  /** The loop of `execute`, from a given count of steps. */
  function Run(s: State): (o: Outcome)
    requires |s.registers| == 32 && s.executed <= MaxInstructions
    ensures |o.state.registers| == 32 && o.state.instructions == s.instructions
    decreases MaxInstructions - s.executed
  {
    if !s.running || s.pc >= |s.instructions| then Outcome(s, None)
    else if s.executed >= MaxInstructions then Outcome(s, Some(LimitExceeded()))
    else
      var o := Step(s);
      if o.fault.Some? then o
      else Run(Counted(o.state))
  }

  /** `execute`: running, no output, no steps counted, then the loop. */
  function Execute(s: State): (o: Outcome)
    requires |s.registers| == 32
    ensures |o.state.registers| == 32
  {
    Run(s.(running := true, output := [], executed := 0))
  }

  /** The loop of the step mode of `executeMIPS`: at most `n` steps, none once halted. */
  function Steps(s: State, n: nat): (o: Outcome)
    requires |s.registers| == 32
    ensures |o.state.registers| == 32
    decreases n
  {
    if n == 0 || !s.running then Outcome(s, None)
    else
      var o := Step(s);
      if o.fault.Some? then o else Steps(o.state, Fewer(n))
  }

  /** One round fewer: `n - 1`, named so that every statement about the count left speaks of the same term. */
  function Fewer(n: nat): (m: nat)
    requires n > 0
    ensures m < n
  {
    n - 1
  }

  // ---------------------------------------------------------------------
  // Loading
  // ---------------------------------------------------------------------

  datatype Section = NoSection | DataPart | TextPart

  /** What `load` works on: the current section, the next data address, and what it fills in. */
  datatype Loader = Loader(section: Section, address: Option<int>, memory: map<int, int>,
                           dataSegment: map<string, Option<int>>, instructions: seq<Entry>)

  const LoaderStart: Loader := Loader(NoSection, Some(DataBase), map[], map[], [])

  /** `NaN`-aware addition of addresses. */
  function Plus(a: Option<int>, n: Option<int>): Option<int>
  {
    if a.Some? && n.Some? then Some(a.value + n.value) else None
  }

  /** The zero-fill loop of `.space`: bytes `a` .. `a + n - 1` become 0. */
  function Fill(mem: map<int, int>, a: int, n: int): map<int, int>
    decreases n
  {
    if n <= 0 then mem else Fill(mem, a, n - 1)[a + n - 1 := 0]
  }

  /** `charCodeAt` of a character from the Basic Multilingual Plane. */
  function CharCodeAt(c: char): int
  {
    c as int
  }

  /** The bytes of a string from `a` on, then the 0 terminator. */
  function StoreChars(mem: map<int, int>, a: int, t: string): map<int, int>
    decreases |t|
  {
    if t == [] then StoreByte(mem, a, 0) else StoreChars(StoreByte(mem, a, CharCodeAt(t[0])), a + 1, t[1..])
  }

  /** `t.replace(/\\<c>/g, r)`: each backslash followed by `c`, left to right, becomes `r`. */
  function ReplaceEscape(t: string, c: char, r: char): string
    decreases |t|
  {
    if |t| >= 2 && t[0] == '\\' && t[1] == c then [r] + ReplaceEscape(t[2..], c, r)
    else if t == [] then []
    else [t[0]] + ReplaceEscape(t[1..], c, r)
  }

  /** The escape handling of `.asciiz`: `\n` first, then `\t`. */
  function Unescape(t: string): string
  {
    ReplaceEscape(ReplaceEscape(t, 'n', '\n'), 't', '\t')
  }

  /** The characters `.` does not match. */
  predicate IsLineTerminator(c: char)
  {
    c == '\n' || c == '\r' || c == '\U{2028}' || c == '\U{2029}'
  }

  /** The first line terminator at or after `i`, or the end. */
  function LineEnd(t: string, i: nat): (j: nat)
    requires i <= |t|
    ensures i <= j <= |t|
    decreases |t| - i
  {
    if i == |t| || IsLineTerminator(t[i]) then i else LineEnd(t, i + 1)
  }

  /** The last `"` in `t[i..j]`. */
  function LastQuote(t: string, i: nat, j: nat): (q: Option<nat>)
    requires i <= j <= |t|
    ensures q.Some? ==> i <= q.value < j && t[q.value] == '"'
    decreases j - i
  {
    if j == i then None else if t[j - 1] == '"' then Some(j - 1) else LastQuote(t, i, j - 1)
  }

  /**
   * `/"(.*)"/`, searched from `i`: the leftmost `"` that a later `"` on
   * the same line closes, and the text up to the last such `"`.
   */
  function Quoted(t: string, i: nat): Option<string>
    requires i <= |t|
    decreases |t| - i
  {
    if i == |t| then None
    else if t[i] == '"' && LastQuote(t, i + 1, LineEnd(t, i + 1)).Some? then
      Some(t[i + 1..LastQuote(t, i + 1, LineEnd(t, i + 1)).value])
    else Quoted(t, i + 1)
  }

  /**
   * A data line `label: directive`: `.word` and `.byte` zero a word or a
   * byte, `.space N` zero-fills N bytes, `.asciiz` stores its string and a
   * terminator; each takes the next address, which then moves past what
   * was stored. An `.asciiz` without a quoted string only takes the
   * address. Stores at a `NaN` address are not modelled (they only ever
   * leave 0 under the key `NaN`, which nothing reads).
   */
  function DataLine(l: Loader, line: string): Loader
    requires ':' in line
  {
    var pieces := Split(line, ':');
    var directive := Trim(pieces[1]);
    Directive(l, Trim(pieces[0]), directive, ParseArg(Split(directive, ' '), 1))
  }

  /** The directive of a data line, for the label `name`; `size` is its operand, which only `.space` reads. */
  function Directive(l: Loader, name: string, directive: string, size: Option<int>): Loader
  {
    var a := l.address;
    var ds := l.dataSegment[name := a];
    if StartsWith(directive, ".word") then
      l.(dataSegment := ds, memory := if a.Some? then StoreWord(l.memory, a.value, 0) else l.memory,
         address := Plus(a, Some(4)))
    else if StartsWith(directive, ".space") then
      l.(dataSegment := ds, memory := if a.Some? && size.Some? then Fill(l.memory, a.value, size.value) else l.memory,
         address := Plus(a, size))
    else if StartsWith(directive, ".byte") then
      l.(dataSegment := ds, memory := if a.Some? then StoreByte(l.memory, a.value, 0) else l.memory,
         address := Plus(a, Some(1)))
    else if StartsWith(directive, ".asciiz") then
      match Quoted(directive, 0)
      case None => l.(dataSegment := ds)
      case Some(str) =>
        var text := Unescape(str);
        l.(dataSegment := ds, memory := if a.Some? then StoreChars(l.memory, a.value, text) else l.memory,
           address := Plus(a, Some(|text| + 1)))
    else l
  }

  /** A text line: `x:` is the marker of label `x`, anything else an instruction. */
  function TextLine(l: Loader, line: string): Loader
  {
    if |line| > 0 && line[|line| - 1] == ':' then l.(instructions := l.instructions + [Label(line[..|line| - 1])])
    else l.(instructions := l.instructions + [Instruction(line)])
  }

  /** One trimmed line of `load`. */
  function LoadLine(l: Loader, line: string): Loader
  {
    if StartsWith(line, "#") || line == "" then l
    else if line == ".data" then l.(section := DataPart)
    else if line == ".text" then l.(section := TextPart)
    else if StartsWith(line, ".globl") then l
    else if l.section == DataPart then (if ':' in line then DataLine(l, line) else l)
    else if l.section == TextPart then TextLine(l, line)
    else l
  }

  /** The lines in order, the last one last. */
  function LoadLines(l: Loader, lines: seq<string>): Loader
  {
    if lines == [] then l else LoadLine(LoadLines(l, lines[..|lines| - 1]), lines[|lines| - 1])
  }

  /** `mipsCode.split('\n').map(l => l.trim())`. */
  function Lines(code: string): (lines: seq<string>)
    ensures |lines| == |Split(code, '\n')|
  {
    var raw := Split(code, '\n');
    seq(|raw|, i requires 0 <= i < |raw| => Trim(raw[i]))
  }

  /** `load`: a reset machine with the data and the instruction list of the text. */
  function Load(code: string): State
  {
    var l := LoadLines(LoaderStart, Lines(code));
    Initial.(memory := l.memory, dataSegment := l.dataSegment, instructions := l.instructions)
  }

  // ---------------------------------------------------------------------
  // executeMIPS
  // ---------------------------------------------------------------------

  /** `currentInstruction`: `null` past the end, `undefined` on a label marker, else the line. */
  datatype Current = NoInstruction | AtLabel | Code(code: string)

  /** The three result objects of `executeMIPS`. */
  datatype Response =
    | Completed(output: seq<int>, registers: map<string, int>, memory: map<int, int>, instructionsExecuted: nat,
                trace: seq<TraceEntry>)
    | Stepped(currentStep: int, registers: map<string, int>, memory: map<int, int>, output: seq<int>, pc: int,
              currentInstruction: Current, completed: bool)
    | Failed(error: string, output: seq<int>, registers: map<string, int>)

  /** How many times `for (let i = 0; i <= currentStep; i++)` runs. */
  function Iterations(currentStep: int): nat
  {
    if currentStep < 0 then 0 else currentStep + 1
  }

  function Failure(s: State, message: string): Response
    requires |s.registers| == 32
  {
    Failed(message, s.output, RegisterState(s.registers))
  }

  /** The step-mode result object, which reads the entry at pc. */
  function StepResult(s: State, currentStep: int): Response
    requires |s.registers| == 32
  {
    if s.pc >= |s.instructions| then
      Stepped(currentStep, RegisterState(s.registers), MemoryState(s.memory), s.output, s.pc, NoInstruction, !s.running)
    else if s.pc < 0 then Failure(s, ReadOfUndefined("code"))
    else
      var current := match s.instructions[s.pc] case Label(_) => AtLabel case Instruction(c) => Code(c);
      Stepped(currentStep, RegisterState(s.registers), MemoryState(s.memory), s.output, s.pc, current, !s.running)
  }

  /**
   * `executeMIPS`: load, then either the step mode (when asked for and a
   * step is given) or a full `execute`; a thrown error becomes a failure
   * carrying the output and registers at that moment.
   */
  function ExecuteMIPS(code: string, currentStep: Option<int>, stepMode: bool): Response
  {
    var s := Load(code);
    if stepMode && currentStep.Some? then StepMode(s, currentStep.value) else FullRun(s)
  }

  /** The step mode of `executeMIPS`: running, then at most `currentStep + 1` steps, none once halted. */
  function StepMode(s: State, currentStep: int): Response
    requires |s.registers| == 32
  {
    var o := Steps(s.(running := true), Iterations(currentStep));
    if o.fault.Some? then Failure(o.state, o.fault.value) else StepResult(o.state, currentStep)
  }

  /** The full run of `executeMIPS`: `execute`, and the result object it returns. */
  function FullRun(s: State): Response
    requires |s.registers| == 32
  {
    var o := Execute(s);
    if o.fault.Some? then Failure(o.state, o.fault.value)
    else Completed(o.state.output, RegisterState(o.state.registers), MemoryState(o.state.memory),
                   o.state.executed, o.state.trace)
  }
}
