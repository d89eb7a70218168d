/*
 * What the MIPS generator emits, as functions of the generator's state.
 *
 * The state that changes is the text section written so far, the label
 * counter and the register allocator's rotation index and allocation count
 * (`GState`). The symbol table, whether a function body is being generated
 * and that function's name stay fixed while one function body (or the
 * top-level code) is generated (`Env`). A lookup of a name the table does
 * not hold is the only error the generator raises.
 */
module CodeGen {
  import opened Util
  import opened Ast
  import opened Symbols
  import opened Registers

  type TempIndex = t: nat | t < 10

  /** The parts of the generator the emitting code changes. */
  datatype GState = GState(text: seq<string>, labels: nat, temp: TempIndex, usage: nat)

  /** The parts that stay fixed while one function body is generated. */
  datatype Env = Env(table: Table, inFunction: bool, fnName: Option<string>)

  /** A new state together with a name: the register holding a value, or a fresh label. */
  datatype Named = Named(st: GState, name: string)

  /** A new state together with the registers holding the evaluated call arguments. */
  datatype Regs = Regs(st: GState, regs: seq<string>)

  /** `emit`, for several lines in a row. */
  function Emit(st: GState, lines: seq<string>): GState
  {
    st.(text := st.text + lines)
  }

  /** `registerAllocator.allocateTemp()`. */
  function Alloc(st: GState): (n: Named)
    ensures n.name in TempRegisters && n.st.text == st.text && n.st.labels == st.labels
    ensures n.st.usage == st.usage + 1
  {
    Named(st.(temp := (st.temp + 1) % 10, usage := st.usage + 1), TempRegisters[st.temp])
  }

  /** `newLabel(prefix)`: `prefix_N` for the current counter `N`, which then moves on. */
  function NewLabel(st: GState, prefix: string): (n: Named)
    ensures n.st == st.(labels := st.labels + 1)
  {
    Named(st.(labels := st.labels + 1), LabelName(prefix, st.labels))
  }

  function LabelName(prefix: string, n: nat): string
  {
    prefix + "_" + NatToString(n)
  }

  /** The message of a failed variable lookup. */
  ghost predicate Undefined(t: Table, msg: string)
  {
    exists name :: name !in t.variables && msg == UndefinedVariable(name)
  }

  /** `st'` continues `st`: lines were appended, no label was taken, at least one register was allocated. */
  predicate Extends(st: GState, st': GState)
  {
    st.text <= st'.text && st'.labels == st.labels && st'.usage > st.usage
  }

  /** `st'` continues `st`: lines were appended, and the label counter did not go back. */
  predicate Grows(st: GState, st': GState)
  {
    st.text <= st'.text && st'.labels >= st.labels && st'.usage >= st.usage
  }

  // ---------------------------------------------------------------------
  // Literals
  // ---------------------------------------------------------------------

  /** How JavaScript writes an integral number, or NaN. */
  function NumberText(v: Option<int>): string
  {
    match v
    case None => "NaN"
    case Some(n) => IntToString(n)
  }

  /** The escape table of `generateLiteral`, keyed by the character after the backslash. */
  function EscapeValue(c: char): Option<int>
  {
    match c
    case 'n' => Some(10)
    case 't' => Some(9)
    case 'r' => Some(13)
    case '0' => Some(0)
    case '\\' => Some(92)
    case '\'' => Some(39)
    case '"' => Some(34)
    case _ => None
  }

  /**
   * The character code as the generator computes it: `escapeMap[c] ||
   * charCodeAt(1)`. The `||` also replaces the table's entry 0 (falsy) by
   * the code of the character after the backslash. `None` is NaN.
   */
  function CharCodeAsWritten(v: string): Option<int>
  {
    if |v| > 0 && v[0] == '\\' then
      if |v| < 2 then None
      else
        var m := EscapeValue(v[1]);
        if m.Some? && m.value != 0 then m else Some(v[1] as int)
    else if |v| == 0 then None
    else Some(v[0] as int)
  }

  /** The character code with every entry of the escape table taken as it stands. */
  function CharCode(v: string): Option<int>
  {
    if |v| > 0 && v[0] == '\\' then
      if |v| < 2 then None
      else
        var m := EscapeValue(v[1]);
        if m.Some? then m else Some(v[1] as int)
    else if |v| == 0 then None
    else Some(v[0] as int)
  }

  /** `generateLiteral`: the value loaded with `li`. */
  function LiteralLine(reg: string, value: string, kind: LiteralType): string
  {
    "    li    " + reg + ", " + NumberText(LiteralValue(value, kind))
  }

  /**
   * `generateLiteral` as written: the same line, but a character literal's
   * code comes from `CharCodeAsWritten`, so `'\0'` loads 48.
   */
  function LiteralLineAsWritten(reg: string, value: string, kind: LiteralType): string
  {
    "    li    " + reg + ", " + NumberText(if kind == CharLit then CharCodeAsWritten(value) else LiteralValue(value, kind))
  }

  /** The value `generateLiteral` loads: a `0x` lexeme in base 16, another number in base 10, a string as 0. */
  function LiteralValue(value: string, kind: LiteralType): Option<int>
  {
    match kind
    case NumberLit => if StartsWith(value, "0x") then ParseIntJs(value, true) else ParseIntDecimal(value)
    case CharLit => CharCode(value)
    case StringLit => Some(0)
  }

  // ---------------------------------------------------------------------
  // Operators
  // ---------------------------------------------------------------------

  /** Three-operand instruction text: `op   res, a, b`, the mnemonic padded to six columns. */
  function Ins3(mnemonic: string, res: string, a: string, b: string): string
  {
    "    " + mnemonic + res + ", " + a + ", " + b
  }

  /** The instructions of a binary operator, after both operands are evaluated. */
  function BinaryLines(op: string, res: string, l: string, r: string): seq<string>
  {
    match op
    case "+" => [Ins3("add   ", res, l, r)]
    case "-" => [Ins3("sub   ", res, l, r)]
    case "*" => [Ins3("mul   ", res, l, r)]
    case "/" => ["    div   " + l + ", " + r, "    mflo  " + res]
    case "%" => ["    div   " + l + ", " + r, "    mfhi  " + res]
    case "<" => [Ins3("slt   ", res, l, r)]
    case ">" => [Ins3("slt   ", res, r, l)]
    case "<=" => [Ins3("slt   ", res, r, l), Ins3("xori  ", res, res, "1")]
    case ">=" => [Ins3("slt   ", res, l, r), Ins3("xori  ", res, res, "1")]
    case "==" => [Ins3("sub   ", res, l, r), Ins3("sltiu ", res, res, "1")]
    case "!=" => [Ins3("sub   ", res, l, r), Ins3("sltu  ", res, "$zero", res)]
    case "&&" => [Ins3("and   ", res, l, r), Ins3("sltu  ", res, "$zero", res)]
    case "||" => [Ins3("or    ", res, l, r), Ins3("sltu  ", res, "$zero", res)]
    case "&" => [Ins3("and   ", res, l, r)]
    case "|" => [Ins3("or    ", res, l, r)]
    case "^" => [Ins3("xor   ", res, l, r)]
    case "<<" => [Ins3("sllv  ", res, l, r)]
    case ">>" => [Ins3("srlv  ", res, l, r)]
    case _ => ["    # Unknown operator: " + op, "    move  " + res + ", $zero"]
  }

  /** The instructions of a unary operator, after the operand is evaluated. */
  function UnaryLines(op: string, res: string, o: string): seq<string>
  {
    match op
    case "-" => [Ins3("sub   ", res, "$zero", o)]
    case "!" => [Ins3("sltiu ", res, o, "1")]
    case "~" => [Ins3("nor   ", res, o, "$zero")]
    case "++" => [Ins3("addi  ", res, o, "1")]
    case "--" => [Ins3("addi  ", res, o, "-1")]
    case _ => ["    # Unknown unary operator: " + op, "    move  " + res + ", " + o]
  }

  // ---------------------------------------------------------------------
  // Calls
  // ---------------------------------------------------------------------

  /** The registers saved around a call made inside a function. */
  const CallerSaved: seq<string> := ["$t0", "$t1", "$t2", "$t3", "$t4"]

  const PushSp := "    addi  $sp, $sp, -4"
  const PopSp := "    addi  $sp, $sp, 4"

  function PushLine(reg: string): string { "    sw    " + reg + ", 0($sp)" }

  function PopLine(reg: string): string { "    lw    " + reg + ", 0($sp)" }

  /** Push each register in turn. */
  function PushAll(regs: seq<string>): seq<string>
  {
    if regs == [] then [] else [PushSp, PushLine(regs[0])] + PushAll(regs[1..])
  }

  /** Pop into each register, the last one first. */
  function PopAll(regs: seq<string>): seq<string>
  {
    if regs == [] then [] else [PopLine(regs[|regs| - 1]), PopSp] + PopAll(regs[..|regs| - 1])
  }

  function SaveLines(env: Env): seq<string>
  {
    if env.inFunction then ["    # Save caller-saved registers"] + PushAll(CallerSaved) else []
  }

  function RestoreLines(env: Env): seq<string>
  {
    if env.inFunction then ["    # Restore caller-saved registers"] + PopAll(CallerSaved) else []
  }

  /** `move $ai, reg    # argument i` for each evaluated argument, numbering from `i`. */
  function MoveArgs(regs: seq<string>, i: nat): seq<string>
  {
    if regs == [] then []
    else ["    move  $a" + NatToString(i) + ", " + regs[0] + "    # argument " + NatToString(i)] + MoveArgs(regs[1..], i + 1)
  }

  // ---------------------------------------------------------------------
  // Memory access
  // ---------------------------------------------------------------------

  function LoadOp(typ: string): string { if typ == "int" then "lw" else "lb" }

  function StoreOp(typ: string): string { if typ == "int" then "sw" else "sb" }

  /** The byte offset of an element: the index shifted left by two for `int`, the index itself otherwise. */
  function OffsetLine(typ: string, off: string, idx: string): string
  {
    if typ == "int" then "    sll   " + off + ", " + idx + ", 2" else "    move  " + off + ", " + idx
  }

  // ---------------------------------------------------------------------
  // Expressions
  // ---------------------------------------------------------------------

  /** `generateExpression`: the code leaves the value in the returned temporary register. */
  function GenExpr(env: Env, st: GState, e: Expr): (r: Result<Named>)
    ensures r.Ok? ==> Extends(st, r.value.st) && r.value.name in TempRegisters
    ensures r.Err? ==> Undefined(env.table, r.msg)
    decreases e, 1
  {
    match e
    case Literal(value, kind, _, _) =>
      var a := Alloc(st);
      Ok(Named(Emit(a.st, [LiteralLine(a.name, value, kind)]), a.name))
    case Identifier(name, index, _, _) => LoadVariable(env, st, name, index)
    case BinaryExpression(_, _, _, _, _) => GenBinary(env, st, e)
    case UnaryExpression(_, _, _, _) => GenUnary(env, st, e)
    case FunctionCall(_, _, _, _) => GenCall(env, st, e)
  }

  /** `generateBinary`: the left operand's code, the right operand's code, then the operator's. */
  function GenBinary(env: Env, st: GState, e: Expr): (r: Result<Named>)
    requires e.BinaryExpression?
    ensures r.Ok? ==> Extends(st, r.value.st) && r.value.name in TempRegisters
    ensures r.Err? ==> Undefined(env.table, r.msg)
    decreases e, 0
  {
    var l :- GenExpr(env, st, e.left);
    var r :- GenExpr(env, l.st, e.right);
    var a := Alloc(r.st);
    Ok(Named(Emit(a.st, BinaryLines(e.operator, a.name, l.name, r.name)), a.name))
  }

  /** `generateUnary`: `++` and `--` applied to a variable also store the result back. */
  function GenUnary(env: Env, st: GState, e: Expr): (r: Result<Named>)
    requires e.UnaryExpression?
    ensures r.Ok? ==> Extends(st, r.value.st) && r.value.name in TempRegisters
    ensures r.Err? ==> Undefined(env.table, r.msg)
    decreases e, 0
  {
    var o :- GenExpr(env, st, e.operand);
    var a := Alloc(o.st);
    var st' := Emit(a.st, UnaryLines(e.operator, a.name, o.name));
    if (e.operator == "++" || e.operator == "--") && e.operand.Identifier? then
      var st'' :- StoreVariable(env, st', e.operand.name, e.operand.arrayIndex, a.name);
      Ok(Named(st'', a.name))
    else Ok(Named(st', a.name))
  }

  /**
   * `generateFunctionCall`: inside a function `$t0`..`$t4` are pushed before
   * and popped after; at most four arguments are evaluated, left to right,
   * and moved to `$a0`..`$a3`; the result is copied from `$v0`.
   */
  function GenCall(env: Env, st: GState, e: Expr): (r: Result<Named>)
    requires e.FunctionCall?
    ensures r.Ok? ==> Extends(st, r.value.st) && r.value.name in TempRegisters
    ensures r.Err? ==> Undefined(env.table, r.msg)
    decreases e, 0
  {
    var s1 := Emit(st, ["    # Call function: " + e.name] + SaveLines(env));
    var args :- GenArgs(env, s1, e.args, 4);
    var s2 := Emit(args.st, MoveArgs(args.regs, 0) + ["    jal   " + e.name] + RestoreLines(env));
    var a := Alloc(s2);
    Ok(Named(Emit(a.st, ["    move  " + a.name + ", $v0    # store return value"]), a.name))
  }

  /** The first `n` arguments, each evaluated in turn. */
  function GenArgs(env: Env, st: GState, args: seq<Expr>, n: nat): (r: Result<Regs>)
    ensures r.Ok? ==> st.text <= r.value.st.text && r.value.st.labels == st.labels && r.value.st.usage >= st.usage
    ensures r.Ok? ==> |r.value.regs| == if |args| < n then |args| else n
    ensures r.Err? ==> Undefined(env.table, r.msg)
    decreases args, 0
  {
    if args == [] || n == 0 then Ok(Regs(st, []))
    else
      var first :- GenExpr(env, st, args[0]);
      var rest :- GenArgs(env, first.st, args[1..], n - 1);
      Ok(Regs(rest.st, [first.name] + rest.regs))
  }

  /**
   * `loadVariable`: a scalar is loaded by name; for an array its address is
   * loaded, and with an index the element at that address plus the offset.
   */
  function LoadVariable(env: Env, st: GState, name: string, index: Option<Expr>): (r: Result<Named>)
    ensures r.Ok? ==> Extends(st, r.value.st) && r.value.name in TempRegisters
    ensures r.Err? ==> Undefined(env.table, r.msg)
    decreases index, 0
  {
    var sym :- env.table.Lookup(name);
    var a := Alloc(st);
    if sym.isArray then
      var s1 := Emit(a.st, ["    la    " + a.name + ", " + name]);
      if index.Some? then
        var idx :- GenExpr(env, s1, index.value);
        var off := Alloc(idx.st);
        Ok(Named(Emit(off.st, [OffsetLine(sym.typ, off.name, idx.name),
                               Ins3("add   ", a.name, a.name, off.name),
                               "    " + LoadOp(sym.typ) + "    " + a.name + ", 0(" + a.name + ")"]), a.name))
      else Ok(Named(s1, a.name))
    else Ok(Named(Emit(a.st, ["    " + LoadOp(sym.typ) + "    " + a.name + ", " + name]), a.name))
  }

  /**
   * `storeVariable`: an array element with an index is stored at the
   * array's address plus the offset (the index code comes first); anything
   * else is stored by name.
   */
  function StoreVariable(env: Env, st: GState, name: string, index: Option<Expr>, src: string): (r: Result<GState>)
    ensures r.Ok? ==> st.text <= r.value.text && r.value.labels == st.labels && r.value.usage >= st.usage
    ensures r.Err? ==> Undefined(env.table, r.msg)
    decreases index, 0
  {
    var sym :- env.table.Lookup(name);
    if sym.isArray && index.Some? then
      var base := Alloc(st);
      var idx :- GenExpr(env, base.st, index.value);
      var off := Alloc(idx.st);
      Ok(Emit(off.st, ["    la    " + base.name + ", " + name,
                       OffsetLine(sym.typ, off.name, idx.name),
                       Ins3("add   ", base.name, base.name, off.name),
                       "    " + StoreOp(sym.typ) + "    " + src + ", 0(" + base.name + ")"]))
    else Ok(Emit(st, ["    " + StoreOp(sym.typ) + "    " + src + ", " + name]))
  }

  // ---------------------------------------------------------------------
  // Statements
  // ---------------------------------------------------------------------

  /** The number of if, for, while and do-while statements in a statement, each of which takes two labels. */
  function Controls(s: Stmt): nat
    decreases s, 1
  {
    match s
    case IfStatement(_, thenBlock, elseBlock, _, _) => 1 + ControlsAll(thenBlock) + ElseControls(elseBlock)
    case ForLoop(init, _, update, body, _, _) => 1 + OptControls(init) + ControlsAll(body) + OptControls(update)
    case WhileLoop(_, body, _, _) => 1 + ControlsAll(body)
    case DoWhileLoop(body, _, _, _) => 1 + ControlsAll(body)
    case Block(ss, _, _) => ControlsAll(ss)
    case _ => 0
  }

  function ControlsAll(ss: seq<Stmt>): nat
    decreases ss, 0
  {
    if ss == [] then 0 else Controls(ss[0]) + ControlsAll(ss[1..])
  }

  function OptControls(o: Option<Stmt>): nat
    decreases o, 0
  {
    match o
    case None => 0
    case Some(s) => Controls(s)
  }

  function ElseControls(b: Else): nat
    decreases b, 0
  {
    match b
    case NoElse => 0
    case Else(ss) => ControlsAll(ss)
  }

  /** The lines that leave a function: the exit syscall in `main`, the epilogue anywhere else. */
  function ReturnLines(env: Env): seq<string>
  {
    if env.fnName == Some("main") then MainExit else Epilogue
  }

  const MainExit: seq<string> := ["    li    $v0, 10", "    syscall"]
  const Epilogue: seq<string> := ["    lw    $ra, 0($sp)", PopSp, "    jr    $ra"]
  const Prologue: seq<string> := ["    # Function prologue", PushSp, "    sw    $ra, 0($sp)", ""]

  /** The statements that hold other statements. */
  predicate Compound(s: Stmt)
  {
    s.IfStatement? || s.ForLoop? || s.WhileLoop? || s.DoWhileLoop? || s.Block?
  }

  /** `generateStatement`; each statement only appends to the text and takes `2 * Controls(s)` labels. */
  function GenStmt(env: Env, st: GState, s: Stmt): (r: Result<GState>)
    ensures r.Ok? ==> st.text <= r.value.text
    ensures r.Ok? ==> r.value.labels == st.labels + 2 * Controls(s)
    ensures r.Err? ==> Undefined(env.table, r.msg)
    decreases s, 2
  {
    if s.IfStatement? then GenIf(env, st, s)
    else if s.ForLoop? then GenFor(env, st, s)
    else if s.WhileLoop? then GenWhile(env, st, s)
    else if s.DoWhileLoop? then GenDoWhile(env, st, s)
    else if s.Block? then GenStmts(env, st, s.statements)
    else GenSimple(env, st, s)
  }

  /** The statements that hold no other statement; none of them takes a label. */
  function GenSimple(env: Env, st: GState, s: Stmt): (r: Result<GState>)
    requires !Compound(s)
    ensures r.Ok? ==> st.text <= r.value.text && r.value.labels == st.labels
    ensures r.Err? ==> Undefined(env.table, r.msg)
  {
    match s
    case Declaration(_, _, _, _, _, _, _) => GenDeclaration(env, st, s)
    case Assignment(_, _, _, _, _, _) => GenAssignment(env, st, s)
    case Printf(_, _, _, _) => GenPrintf(env, st, s)
    case Scanf(_, _, _, _) => GenScanf(env, st, s)
    case ReturnStatement(_, _, _) => GenReturn(env, st, s)
    case ExpressionStatement(e, _, _) =>
      var c :- GenExpr(env, st, e);
      Ok(c.st)
  }

  /** The statements of a list, in order. */
  function GenStmts(env: Env, st: GState, ss: seq<Stmt>): (r: Result<GState>)
    ensures r.Ok? ==> st.text <= r.value.text
    ensures r.Ok? ==> r.value.labels == st.labels + 2 * ControlsAll(ss)
    ensures r.Err? ==> Undefined(env.table, r.msg)
    decreases ss, 0
  {
    if ss == [] then Ok(st)
    else
      var s1 :- GenStmt(env, st, ss[0]);
      GenStmts(env, s1, ss[1..])
  }

  function GenOptStmt(env: Env, st: GState, o: Option<Stmt>): (r: Result<GState>)
    ensures r.Ok? ==> st.text <= r.value.text
    ensures r.Ok? ==> r.value.labels == st.labels + 2 * OptControls(o)
    ensures r.Err? ==> Undefined(env.table, r.msg)
    decreases o, 0
  {
    match o
    case None => Ok(st)
    case Some(s) => GenStmt(env, st, s)
  }

  /** `generateDeclaration`: only an initialiser generates code, a store by name. */
  function GenDeclaration(env: Env, st: GState, s: Stmt): (r: Result<GState>)
    requires s.Declaration?
    ensures r.Ok? ==> st.text <= r.value.text && r.value.labels == st.labels
    ensures r.Err? ==> Undefined(env.table, r.msg)
  {
    match s.initialValue
    case None => Ok(st)
    case Some(e) =>
      var c :- GenExpr(env, st, e);
      StoreVariable(env, c.st, s.identifier, None, c.name)
  }

  /** The arithmetic instruction of a compound assignment `+=`, `-=` or `*=`. */
  function CompoundLine(op: string, res: string, v: string, rhs: string): string
  {
    Ins3(if op == "+=" then "add   " else if op == "-=" then "sub   " else "mul   ", res, v, rhs)
  }

  /**
   * `generateAssignment`: the right-hand side first; `=` stores it, a
   * compound operator loads the target, combines and stores; any other
   * operator stores nothing.
   */
  function GenAssignment(env: Env, st: GState, s: Stmt): (r: Result<GState>)
    requires s.Assignment?
    ensures r.Ok? ==> st.text <= r.value.text && r.value.labels == st.labels
    ensures r.Err? ==> Undefined(env.table, r.msg)
  {
    var s0 := Emit(st, ["    # Assignment: " + s.identifier + " " + s.operator]);
    var rhs :- GenExpr(env, s0, s.expression);
    if s.operator == "=" then
      StoreVariable(env, rhs.st, s.identifier, s.arrayIndex, rhs.name)
    else if s.operator in ["+=", "-=", "*=", "/=", "%="] then
      GenCompound(env, rhs.st, s, rhs.name)
    else Ok(rhs.st)
  }

  /** A compound assignment after its right-hand side: load the target, combine, store. */
  function GenCompound(env: Env, st: GState, s: Stmt, rhs: string): (r: Result<GState>)
    requires s.Assignment?
    ensures r.Ok? ==> st.text <= r.value.text && r.value.labels == st.labels
    ensures r.Err? ==> Undefined(env.table, r.msg)
  {
    var v :- LoadVariable(env, st, s.identifier, s.arrayIndex);
    var c := Combine(v.st, s.operator, v.name, rhs);
    StoreVariable(env, c.st, s.identifier, s.arrayIndex, c.name)
  }

  /**
   * The arithmetic of a compound assignment into a fresh temporary: one
   * instruction for `+=`, `-=`, `*=`; a `div` and a `mflo` (quotient) or
   * `mfhi` (remainder) for `/=` and `%=`.
   */
  function Combine(st: GState, op: string, v: string, rhs: string): (n: Named)
    ensures Extends(st, n.st) && n.name in TempRegisters
  {
    if op in ["+=", "-=", "*="] then
      var res := Alloc(st);
      Named(Emit(res.st, [CompoundLine(op, res.name, v, rhs)]), res.name)
    else
      var res := Alloc(Emit(st, ["    div   " + v + ", " + rhs]));
      var pick := if op == "/=" then "    mflo  " else "    mfhi  ";
      Named(Emit(res.st, [pick + res.name]), res.name)
  }

  /** A conditional branch to `label` taken when `cond` holds zero. */
  function BranchIfZero(cond: string, target: string): string
  {
    "    beq   " + cond + ", $zero, " + target
  }

  function Jump(target: string): string { "    j     " + target }

  /**
   * `generateIf`: both labels are taken first; the condition branches to
   * the else label when there is a non-empty else block, otherwise to the
   * end label.
   */
  function GenIf(env: Env, st: GState, s: Stmt): (r: Result<GState>)
    requires s.IfStatement?
    ensures r.Ok? ==> st.text <= r.value.text
    ensures r.Ok? ==> r.value.labels == st.labels + 2 * Controls(s)
    ensures r.Err? ==> Undefined(env.table, r.msg)
    decreases s, 1
  {
    var el := NewLabel(st, "else");
    var en := NewLabel(el.st, "endif");
    var c :- GenExpr(env, Emit(en.st, ["    # If statement"]), s.condition);
    var hasElse := s.elseBlock.Else? && |s.elseBlock.statements| > 0;
    GenIfBranches(env, Emit(c.st, [BranchIfZero(c.name, if hasElse then el.name else en.name)]), s, el.name, en.name)
  }

  /** The then block, the else part and the end label of an if, after its condition test. */
  function GenIfBranches(env: Env, st: GState, s: Stmt, elseLabel: string, endLabel: string): (r: Result<GState>)
    requires s.IfStatement?
    ensures r.Ok? ==> st.text <= r.value.text
    ensures r.Ok? ==> r.value.labels == st.labels + 2 * (ControlsAll(s.thenBlock) + ElseControls(s.elseBlock))
    ensures r.Err? ==> Undefined(env.table, r.msg)
    decreases s, 0
  {
    var s1 :- GenStmts(env, st, s.thenBlock);
    var s2 :- GenElse(env, s1, s.elseBlock, elseLabel, endLabel);
    Ok(Emit(s2, [endLabel + ":"]))
  }

  /** The else part of an if: a jump over it, its label and its statements, when it has any. */
  function GenElse(env: Env, st: GState, b: Else, elseLabel: string, endLabel: string): (r: Result<GState>)
    ensures r.Ok? ==> st.text <= r.value.text
    ensures r.Ok? ==> r.value.labels == st.labels + 2 * ElseControls(b)
    ensures r.Err? ==> Undefined(env.table, r.msg)
    decreases b, 0
  {
    match b
    case NoElse => Ok(st)
    case Else(ss) =>
      if |ss| == 0 then Ok(st)
      else GenStmts(env, Emit(st, [Jump(endLabel), elseLabel + ":"]), ss)
  }

  /** `generateFor`: init, start label, condition test, body, update, jump back, end label. */
  function GenFor(env: Env, st: GState, s: Stmt): (r: Result<GState>)
    requires s.ForLoop?
    ensures r.Ok? ==> st.text <= r.value.text
    ensures r.Ok? ==> r.value.labels == st.labels + 2 * Controls(s)
    ensures r.Err? ==> Undefined(env.table, r.msg)
    decreases s, 1
  {
    var start := NewLabel(st, "for_start");
    var end := NewLabel(start.st, "for_end");
    var s1 :- GenOptStmt(env, Emit(end.st, ["    # For loop"]), s.init);
    GenForRest(env, Emit(s1, [start.name + ":"]), s, start.name, end.name)
  }

  /** A for loop after its start label: the test, the body, the update and the jump back. */
  function GenForRest(env: Env, st: GState, s: Stmt, startLabel: string, endLabel: string): (r: Result<GState>)
    requires s.ForLoop?
    ensures r.Ok? ==> st.text <= r.value.text
    ensures r.Ok? ==> r.value.labels == st.labels + 2 * (ControlsAll(s.body) + OptControls(s.update))
    ensures r.Err? ==> Undefined(env.table, r.msg)
    decreases s, 0
  {
    var s1 :- GenLoopTest(env, st, s.loopCondition, endLabel);
    var s2 :- GenStmts(env, s1, s.body);
    var s3 :- GenOptStmt(env, s2, s.update);
    Ok(Emit(s3, [Jump(startLabel), endLabel + ":"]))
  }

  /** The condition of a for loop, when it has one, and the branch out of the loop. */
  function GenLoopTest(env: Env, st: GState, cond: Option<Expr>, endLabel: string): (r: Result<GState>)
    ensures r.Ok? ==> st.text <= r.value.text && r.value.labels == st.labels
    ensures r.Err? ==> Undefined(env.table, r.msg)
  {
    match cond
    case None => Ok(st)
    case Some(e) =>
      var c :- GenExpr(env, st, e);
      Ok(Emit(c.st, [BranchIfZero(c.name, endLabel)]))
  }

  /** `generateWhile`: start label, condition test, body, jump back, end label. */
  function GenWhile(env: Env, st: GState, s: Stmt): (r: Result<GState>)
    requires s.WhileLoop?
    ensures r.Ok? ==> st.text <= r.value.text
    ensures r.Ok? ==> r.value.labels == st.labels + 2 * Controls(s)
    ensures r.Err? ==> Undefined(env.table, r.msg)
    decreases s, 1
  {
    var start := NewLabel(st, "while_start");
    var end := NewLabel(start.st, "while_end");
    var c :- GenExpr(env, Emit(end.st, ["    # While loop", start.name + ":"]), s.condition);
    var s1 :- GenStmts(env, Emit(c.st, [BranchIfZero(c.name, end.name)]), s.body);
    Ok(Emit(s1, [Jump(start.name), end.name + ":"]))
  }

  /** `generateDoWhile`: start label, body, condition, a branch back while it is non-zero, end label. */
  function GenDoWhile(env: Env, st: GState, s: Stmt): (r: Result<GState>)
    requires s.DoWhileLoop?
    ensures r.Ok? ==> st.text <= r.value.text
    ensures r.Ok? ==> r.value.labels == st.labels + 2 * Controls(s)
    ensures r.Err? ==> Undefined(env.table, r.msg)
    decreases s, 1
  {
    var start := NewLabel(st, "do_start");
    var end := NewLabel(start.st, "do_end");
    var s1 :- GenStmts(env, Emit(end.st, ["    # Do-while loop", start.name + ":"]), s.body);
    var c :- GenExpr(env, s1, s.condition);
    Ok(Emit(c.st, ["    bne   " + c.name + ", $zero, " + start.name, end.name + ":"]))
  }

  /**
   * The conversion letters of a format string, left to right: every `%`
   * followed by one of `letters`, the two characters consumed together.
   */
  function FormatSpecs(fmt: string, letters: set<char>): (specs: seq<char>)
    ensures forall i :: 0 <= i < |specs| ==> specs[i] in letters
    ensures 2 * |specs| <= |fmt|
  {
    if |fmt| < 2 then []
    else if fmt[0] == '%' && fmt[1] in letters then [fmt[1]] + FormatSpecs(fmt[2..], letters)
    else FormatSpecs(fmt[1..], letters)
  }

  /** The print call for one conversion; `%f` has none. */
  function PrintLines(spec: char, reg: string): seq<string>
  {
    match spec
    case 'd' => ["    move  $a0, " + reg, "    li    $v0, 1    # print int", "    syscall"]
    case 'c' => ["    move  $a0, " + reg, "    li    $v0, 11   # print char", "    syscall"]
    case 's' => ["    move  $a0, " + reg, "    li    $v0, 4    # print string", "    syscall"]
    case _ => []
  }

  /** The i-th conversion with the i-th expression, for as many pairs as both lists have. */
  function PrintArgs(env: Env, st: GState, specs: seq<char>, exprs: seq<Expr>): (r: Result<GState>)
    ensures r.Ok? ==> st.text <= r.value.text && r.value.labels == st.labels
    ensures r.Err? ==> Undefined(env.table, r.msg)
    decreases |specs|
  {
    if specs == [] || exprs == [] then Ok(st)
    else
      var c :- GenExpr(env, st, exprs[0]);
      PrintArgs(env, Emit(c.st, PrintLines(specs[0], c.name)), specs[1..], exprs[1..])
  }

  /** What follows the conversions: a newline print when the raw format holds `\n`, else a space print when it holds a space. */
  function FormatTail(fmt: string): seq<string>
  {
    if Contains(fmt, "\\n") then ["    la    $a0, _newline", "    li    $v0, 4    # print string", "    syscall"]
    else if Contains(fmt, " ") then ["    la    $a0, _space", "    li    $v0, 4    # print string", "    syscall"]
    else []
  }

  const PrintfLetters: set<char> := {'d', 'c', 's', 'f'}
  const ScanfLetters: set<char> := {'d', 'c', 's'}

  /** `generatePrintf`. */
  function GenPrintf(env: Env, st: GState, s: Stmt): (r: Result<GState>)
    requires s.Printf?
    ensures r.Ok? ==> st.text <= r.value.text && r.value.labels == st.labels
    ensures r.Err? ==> Undefined(env.table, r.msg)
  {
    var s1 :- PrintArgs(env, Emit(st, ["    # Printf"]), FormatSpecs(s.formatString, PrintfLetters), s.expressions);
    Ok(Emit(s1, FormatTail(s.formatString)))
  }

  /** The read call for one conversion: syscall 5 for `%d`, 12 for `%c`; `%s` reads nothing. */
  function ReadLines(spec: char): seq<string>
  {
    match spec
    case 'd' => ["    li    $v0, 5    # read int", "    syscall"]
    case 'c' => ["    li    $v0, 12   # read char", "    syscall"]
    case _ => []
  }

  /** The i-th conversion with the i-th variable: a read, then `$v0` stored by name. */
  function ScanArgs(env: Env, st: GState, specs: seq<char>, ids: seq<string>): (r: Result<GState>)
    ensures r.Ok? ==> st.text <= r.value.text && r.value.labels == st.labels
    ensures r.Err? ==> Undefined(env.table, r.msg)
    decreases |specs|
  {
    if specs == [] || ids == [] then Ok(st)
    else if specs[0] == 'd' || specs[0] == 'c' then
      var s1 :- StoreVariable(env, Emit(st, ReadLines(specs[0])), ids[0], None, "$v0");
      ScanArgs(env, s1, specs[1..], ids[1..])
    else ScanArgs(env, st, specs[1..], ids[1..])
  }

  /** `generateScanf`. */
  function GenScanf(env: Env, st: GState, s: Stmt): (r: Result<GState>)
    requires s.Scanf?
    ensures r.Ok? ==> st.text <= r.value.text && r.value.labels == st.labels
    ensures r.Err? ==> Undefined(env.table, r.msg)
  {
    ScanArgs(env, Emit(st, ["    # Scanf"]), FormatSpecs(s.formatString, ScanfLetters), s.identifiers)
  }

  /** `generateReturn`: the value, if any, into `$v0`, then the exit of the current function. */
  function GenReturn(env: Env, st: GState, s: Stmt): (r: Result<GState>)
    requires s.ReturnStatement?
    ensures r.Ok? ==> st.text <= r.value.text && r.value.labels == st.labels
    ensures r.Err? ==> Undefined(env.table, r.msg)
  {
    var s0 := Emit(st, ["    # Return statement"]);
    match s.returned
    case None => Ok(Emit(s0, ReturnLines(env)))
    case Some(e) =>
      var c :- GenExpr(env, s0, e);
      Ok(Emit(c.st, ["    move  $v0, " + c.name] + ReturnLines(env)))
  }

  // ---------------------------------------------------------------------
  // Functions and the text section
  // ---------------------------------------------------------------------

  function FunctionHeader(name: string): seq<string>
  {
    ["# ----------------------------------------", "# Function: " + name, "# ----------------------------------------", name + ":"]
  }

  /** The default exit at the end of a function body. */
  function FunctionExit(name: string): seq<string>
  {
    if name == "main" then ["    # Main function exit"] + MainExit else ["    # Function epilogue"] + Epilogue
  }

  /** The stores of the first four parameters from `$a0`..`$a3`; a parameter the table lacks is skipped. */
  function ParamLines(t: Table, ps: seq<Param>, i: nat): seq<string>
    decreases |ps|
  {
    if ps == [] || i >= 4 then []
    else
      var p := ps[0];
      var line := "    " + StoreOp(p.typ) + "    $a" + NatToString(i) + ", " + p.name + "    # param: " + p.name;
      (if p.name in t.variables then [line] else []) + ParamLines(t, ps[1..], i + 1)
  }

  function ParamBlock(t: Table, ps: seq<Param>): seq<string>
  {
    if |ps| > 0 then ["    # Store function parameters"] + ParamLines(t, ps, 0) + [""] else []
  }

  /** What `generateFunction` emits before the body: header, prologue (not for `main`), parameter stores. */
  function FunctionEntry(t: Table, f: FunctionDecl): seq<string>
  {
    FunctionHeader(f.name) + (if f.name != "main" then Prologue else []) + ParamBlock(t, f.params) +
    ["    # Function body"]
  }

  /** The environment of a function body. */
  function FunctionEnv(t: Table, f: FunctionDecl): Env
  {
    Env(t, true, Some(f.name))
  }

  /**
   * `generateFunction`: the allocator restarts at `$t0`; entry, body, the
   * default exit and a blank line.
   */
  function GenFunction(t: Table, st: GState, f: FunctionDecl): (r: Result<GState>)
    ensures r.Ok? ==> st.text <= r.value.text
    ensures r.Err? ==> Undefined(t, r.msg)
  {
    var s1 :- GenStmts(FunctionEnv(t, f), Emit(st.(temp := 0), FunctionEntry(t, f)), f.bodyStatements);
    Ok(Emit(s1, [""] + FunctionExit(f.name) + [""]))
  }

  function GenFunctions(t: Table, st: GState, fs: seq<FunctionDecl>): (r: Result<GState>)
    ensures r.Ok? ==> st.text <= r.value.text
    ensures r.Err? ==> Undefined(t, r.msg)
    decreases |fs|
  {
    if fs == [] then Ok(st)
    else
      var s1 :- GenFunction(t, st, fs[0]);
      GenFunctions(t, s1, fs[1..])
  }

  /** `find(f => f.name === 'main')`: the first function named `main`. */
  function FindMain(fs: seq<FunctionDecl>): (m: Option<FunctionDecl>)
    ensures m.Some? ==> m.value in fs && m.value.name == "main"
    ensures m.None? ==> forall i :: 0 <= i < |fs| ==> fs[i].name != "main"
    decreases |fs|
  {
    if fs == [] then None else if fs[0].name == "main" then Some(fs[0]) else FindMain(fs[1..])
  }

  /** `filter(f => f.name !== 'main')`. */
  function NonMain(fs: seq<FunctionDecl>): (r: seq<FunctionDecl>)
    ensures forall i :: 0 <= i < |r| ==> r[i].name != "main" && r[i] in fs
    decreases |fs|
  {
    if fs == [] then [] else (if fs[0].name != "main" then [fs[0]] else []) + NonMain(fs[1..])
  }

  const TextHeader: seq<string> := [".text", ".globl main", ""]
  const NoMainStub: seq<string> := ["main:", "    # Error: No main function found", "    li    $v0, 10", "    syscall"]
  const ProgramExit: seq<string> := ["", "    # Exit program", "    li    $v0, 10", "    syscall"]

  /** The code of a program without functions: its top-level statements under `main:`. */
  function GenTopLevel(t: Table, st: GState, ss: seq<Stmt>): (r: Result<GState>)
    ensures r.Ok? ==> st.text <= r.value.text
    ensures r.Err? ==> Undefined(t, r.msg)
  {
    var s1 :- GenStmts(Env(t, false, None), Emit(st, ["main:"]), ss);
    Ok(Emit(s1, ProgramExit))
  }

  /**
   * `generateTextSection`: with functions, `main` first and every other
   * function in order (the top-level statements are not generated), or a
   * stub `main` that exits; without functions, the top-level statements.
   */
  function TextSection(t: Table, prog: Program, st: GState): (r: Result<GState>)
    ensures r.Ok? ==> st.text <= r.value.text
    ensures r.Err? ==> Undefined(t, r.msg)
  {
    var s0 := Emit(st, TextHeader);
    if |prog.functions| > 0 then
      var m := FindMain(prog.functions);
      var s1 :- if m.Some? then GenFunction(t, s0, m.value) else Ok(s0);
      var s2 :- GenFunctions(t, s1, NonMain(prog.functions));
      if m.None? then Ok(Emit(s2, NoMainStub)) else Ok(s2)
    else GenTopLevel(t, s0, prog.statements)
  }

  // ---------------------------------------------------------------------
  // The data section and the whole output
  // ---------------------------------------------------------------------

  /** How a JavaScript template literal writes an array size: `null`, the number, or `NaN`. */
  function SizeText(a: ArraySize): string
  {
    match a
    case NoSize => "null"
    case Size(n) => IntToString(n)
    case SizeNaN => "NaN"
  }

  /** The bytes an array reserves: `size * 4` for `int` (`null * 4` is 0), the size itself otherwise. */
  function SpaceText(typ: string, a: ArraySize): string
  {
    if typ == "int" then
      match a
      case NoSize => "0"
      case Size(n) => IntToString(4 * n)
      case SizeNaN => "NaN"
    else SizeText(a)
  }

  /** The data line of one global: `.space` for an array, `.word 0` for an int, `.byte 0` for a char, none otherwise. */
  function VarLine(v: VariableSymbol): seq<string>
  {
    if v.isArray then [v.name + ": .space " + SpaceText(v.typ, v.arraySize) + "    # " + v.typ + "[" + SizeText(v.arraySize) + "]"]
    else if v.typ == "int" then [v.name + ": .word 0    # int"]
    else if v.typ == "char" then [v.name + ": .byte 0    # char"]
    else []
  }

  function VarLines(vs: seq<VariableSymbol>): seq<string>
  {
    if vs == [] then [] else VarLine(vs[0]) + VarLines(vs[1..])
  }

  const DataTail: seq<string> := ["_newline: .asciiz \"\\n\"", "_space: .asciiz \" \"", ""]

  /** `generateDataSection`: the globals in definition order, then the two print strings. */
  function DataSection(t: Table): seq<string>
    requires t.Valid()
  {
    [".data"] + VarLines(t.GlobalSymbols()) + DataTail
  }

  const Banner: seq<string> := ["# ============================================", "# Generated MIPS Assembly Code",
                                "# C-to-MIPS Compiler", "# ============================================", ""]

  /** `assembleOutput`: banner, data section, a blank line, text section, joined by newlines. */
  function Assemble(data: seq<string>, text: seq<string>): string
  {
    Join(Banner + data + [""] + text, "\n")
  }

  /** A new generator's state: no text, no label taken, the allocator at `$t0`. */
  const Start: GState := GState([], 0, 0, 0)

  /** `generate`: the data section, then the text section, then the assembled output. */
  function Generate(t: Table, prog: Program): (r: Result<string>)
    requires t.Valid()
    ensures r.Err? ==> Undefined(t, r.msg)
  {
    var st :- TextSection(t, prog, Start);
    Ok(Assemble(DataSection(t), st.text))
  }
}
