/*
 * The MIPS generator object: the data and text sections it appends to, the
 * label counter, the register allocator it calls while it walks the tree,
 * and the name of the function being generated. Every method is proved to
 * do what the functions of module CodeGen say.
 */
module Generator {
  import opened Util
  import opened Ast
  import opened Symbols
  import opened Registers
  import opened CodeGen

  /** A list shorn of its first `i` elements; empty once `i` runs past its end. */
  function Drop<T>(s: seq<T>, i: nat): seq<T>
  {
    if i <= |s| then s[i..] else []
  }

  /** Registers evaluated so far, put in front of the ones still to come. */
  function Prepend(done: seq<string>, r: Result<Regs>): (r': Result<Regs>)
    ensures done == [] ==> r' == r
  {
    match r
    case Ok(rest) =>
      assert done == [] ==> done + rest.regs == rest.regs;
      Ok(Regs(rest.st, done + rest.regs))
    case Err(m) => Err(m)
  }

  lemma PrependTwice(done: seq<string>, reg: string, r: Result<Regs>)
    ensures Prepend(done, Prepend([reg], r)) == Prepend(done + [reg], r)
  {
    if r.Ok? {
      assert done + ([reg] + r.value.regs) == (done + [reg]) + r.value.regs;
    }
  }

  /** The `{dataLines, textLines, totalLines, labelsGenerated, registerStats}` object of `getStats`. */
  datatype GeneratorStats = GeneratorStats(dataLines: nat, textLines: nat, totalLines: nat, labelsGenerated: nat,
                         registerStats: Registers.Stats)

  class MIPSGenerator {
    const ast: Program
    const symbolTable: Table
    const registerAllocator: RegisterAllocator
    var dataSection: seq<string>
    var textSection: seq<string>
    var labelCounter: nat
    var currentFunctionName: Option<string>
    var inFunction: bool

    ghost predicate Valid()
      reads this, registerAllocator
    {
      registerAllocator.Valid()
    }

    /** The part of the generator the emitting code changes. */
    function State(): GState
      reads this, registerAllocator
      requires Valid()
    {
      GState(textSection, labelCounter, registerAllocator.currentTemp, registerAllocator.usageCount)
    }

    /** The part that stays fixed while one function body is generated. */
    function Context(): Env
      reads this
    {
      Env(symbolTable, inFunction, currentFunctionName)
    }

    /** A step that returns a register did what `spec` says: the same register or message, and the same new state. */
    ghost predicate Yields(spec: Result<Named>, r: Result<string>)
      reads this, registerAllocator
      requires Valid()
    {
      match spec
      case Ok(n) => r == Ok(n.name) && State() == n.st
      case Err(m) => r == Err(m)
    }

    /** A step that returns several registers did what `spec` says. */
    ghost predicate YieldsRegs(spec: Result<Regs>, r: Result<seq<string>>)
      reads this, registerAllocator
      requires Valid()
    {
      match spec
      case Ok(n) => r == Ok(n.regs) && State() == n.st
      case Err(m) => r == Err(m)
    }

    /** A step that returns nothing did what `spec` says: the same message, or the same new state. */
    ghost predicate Reaches(spec: Result<GState>, r: Result<()>)
      reads this, registerAllocator
      requires Valid()
    {
      match spec
      case Ok(s) => r == Ok(()) && State() == s
      case Err(m) => r == Err(m)
    }

    constructor(ast: Program, symbolTable: Table)
      ensures this.ast == ast && this.symbolTable == symbolTable && fresh(registerAllocator)
      ensures Valid() && State() == Start && dataSection == []
      ensures Context() == Env(symbolTable, false, None)
    {
      this.ast := ast;
      this.symbolTable := symbolTable;
      registerAllocator := new RegisterAllocator();
      dataSection := [];
      textSection := [];
      labelCounter := 0;
      currentFunctionName := None;
      inFunction := false;
    }

    /** `emit`: one line appended to the text section. */
    method Emit(line: string)
      modifies this
      ensures textSection == old(textSection) + [line]
      ensures labelCounter == old(labelCounter) && dataSection == old(dataSection) && Context() == old(Context())
    {
      textSection := textSection + [line];
    }

    /** Several `emit` calls in a row. */
    method EmitLines(lines: seq<string>)
      modifies this
      ensures textSection == old(textSection) + lines
      ensures labelCounter == old(labelCounter) && dataSection == old(dataSection) && Context() == old(Context())
    {
      var i := 0;
      while i < |lines|
        invariant i <= |lines| && textSection == old(textSection) + lines[..i]
        invariant labelCounter == old(labelCounter) && dataSection == old(dataSection) && Context() == old(Context())
      {
        Emit(lines[i]);
        assert lines[..i + 1] == lines[..i] + [lines[i]];
        i := i + 1;
      }
      assert lines[..i] == lines;
    }

    /** `newLabel`: the label of the current count; the count moves on. */
    method NewLabel(prefix: string) returns (l: string)
      modifies this
      ensures l == LabelName(prefix, old(labelCounter)) && labelCounter == old(labelCounter) + 1
      ensures textSection == old(textSection) && dataSection == old(dataSection) && Context() == old(Context())
    {
      l := LabelName(prefix, labelCounter);
      labelCounter := labelCounter + 1;
    }

    // -------------------------------------------------------------------
    // Expressions
    // -------------------------------------------------------------------

    method GenerateExpression(e: Expr) returns (r: Result<string>)
      requires Valid()
      modifies this, registerAllocator
      ensures Valid() && Context() == old(Context()) && dataSection == old(dataSection)
      ensures Yields(GenExpr(Context(), old(State()), e), r)
      decreases e, 1
    {
      match e
      case Literal(_, _, _, _) => r := GenerateLiteral(e);
      case Identifier(name, index, _, _) => r := LoadVariable(name, index);
      case BinaryExpression(_, _, _, _, _) => r := GenerateBinary(e);
      case UnaryExpression(_, _, _, _) => r := GenerateUnary(e);
      case FunctionCall(_, _, _, _) => r := GenerateFunctionCall(e);
    }

    method GenerateLiteral(e: Expr) returns (r: Result<string>)
      requires Valid() && e.Literal?
      modifies this, registerAllocator
      ensures Valid() && Context() == old(Context()) && dataSection == old(dataSection)
      ensures Yields(GenExpr(Context(), old(State()), e), r)
    {
      ghost var a := Alloc(State());
      var reg := registerAllocator.AllocateTemp();
      assert reg == a.name && State() == a.st;
      var line := LiteralLine(reg, e.value, e.literalType);
      Emit(line);
      r := Ok(reg);
    }

    method GenerateBinary(e: Expr) returns (r: Result<string>)
      requires Valid() && e.BinaryExpression?
      modifies this, registerAllocator
      ensures Valid() && Context() == old(Context()) && dataSection == old(dataSection)
      ensures Yields(GenBinary(Context(), old(State()), e), r)
      decreases e, 0
    {
      ghost var s0 := State();
      var left :- GenerateExpression(e.left);
      ghost var s1 := State();
      assert GenExpr(Context(), s0, e.left) == Ok(Named(s1, left));
      var right := GenerateExpression(e.right);
      if right.Err? {
        assert GenBinary(Context(), s0, e) == Err(right.msg);
        return Err(right.msg);
      }
      ghost var s2 := State();
      assert GenExpr(Context(), s1, e.right) == Ok(Named(s2, right.value));
      ghost var g_res := Alloc(State());
      var res := registerAllocator.AllocateTemp();
      assert res == g_res.name && State() == g_res.st;
      var lines := BinaryLines(e.operator, res, left, right.value);
      EmitLines(lines);
      r := Ok(res);
    }

    method GenerateUnary(e: Expr) returns (r: Result<string>)
      requires Valid() && e.UnaryExpression?
      modifies this, registerAllocator
      ensures Valid() && Context() == old(Context()) && dataSection == old(dataSection)
      ensures Yields(GenUnary(Context(), old(State()), e), r)
      decreases e, 0
    {
      ghost var s0 := State();
      var operand :- GenerateExpression(e.operand);
      ghost var s1 := State();
      assert GenExpr(Context(), s0, e.operand) == Ok(Named(s1, operand));
      ghost var g_res := Alloc(State());
      var res := registerAllocator.AllocateTemp();
      assert res == g_res.name && State() == g_res.st;
      var lines := UnaryLines(e.operator, res, operand);
      EmitLines(lines);
      ghost var s2 := State();
      if (e.operator == "++" || e.operator == "--") && e.operand.Identifier? {
        var stored :- StoreVariable(e.operand.name, e.operand.arrayIndex, res);
        assert CodeGen.StoreVariable(Context(), s2, e.operand.name, e.operand.arrayIndex, res) == Ok(State());
      }
      r := Ok(res);
    }

    method GenerateFunctionCall(e: Expr) returns (r: Result<string>)
      requires Valid() && e.FunctionCall?
      modifies this, registerAllocator
      ensures Valid() && Context() == old(Context()) && dataSection == old(dataSection)
      ensures Yields(GenCall(Context(), old(State()), e), r)
      decreases e, 0
    {
      ghost var s0 := State();
      var head := ["    # Call function: " + e.name] + SaveLines(Context());
      EmitLines(head);
      ghost var s1 := State();
      assert s1 == CodeGen.Emit(s0, head);
      var argRegs :- GenerateArguments(e.args);
      ghost var s2 := State();
      var tail := MoveArgs(argRegs, 0) + ["    jal   " + e.name] + RestoreLines(Context());
      EmitLines(tail);
      ghost var g_res := Alloc(State());
      var res := registerAllocator.AllocateTemp();
      assert res == g_res.name && State() == g_res.st;
      var last := "    move  " + res + ", $v0    # store return value";
      Emit(last);
      r := Ok(res);
    }

    /** The argument loop of `generateFunctionCall`: at most the first four arguments, in order. */
    method GenerateArguments(args: seq<Expr>) returns (r: Result<seq<string>>)
      requires Valid()
      modifies this, registerAllocator
      ensures Valid() && Context() == old(Context()) && dataSection == old(dataSection)
      ensures YieldsRegs(GenArgs(Context(), old(State()), args, 4), r)
      decreases args, 0
    {
      ghost var s1 := State();
      var regs: seq<string> := [];
      var i := 0;
      assert args[0..] == args;
      while i < |args| && i < 4
        invariant Valid() && Context() == old(Context()) && dataSection == old(dataSection)
        invariant i <= |args| && i <= 4
        invariant GenArgs(Context(), s1, args, 4) == Prepend(regs, GenArgs(Context(), State(), args[i..], 4 - i))
        decreases |args| - i
      {
        ghost var before := State();
        assert args[i..][0] == args[i] && args[i..][1..] == args[i + 1..];
        var reg :- GenerateExpression(args[i]);
        assert GenArgs(Context(), before, args[i..], 4 - i) ==
               Prepend([reg], GenArgs(Context(), State(), args[i + 1..], 4 - (i + 1)));
        PrependTwice(regs, reg, GenArgs(Context(), State(), args[i + 1..], 4 - (i + 1)));
        regs := regs + [reg];
        i := i + 1;
      }
      assert GenArgs(Context(), State(), args[i..], 4 - i) == Ok(Regs(State(), []));
      assert regs + [] == regs;
      r := Ok(regs);
    }

    method LoadVariable(name: string, index: Option<Expr>) returns (r: Result<string>)
      requires Valid()
      modifies this, registerAllocator
      ensures Valid() && Context() == old(Context()) && dataSection == old(dataSection)
      ensures Yields(CodeGen.LoadVariable(Context(), old(State()), name, index), r)
      decreases index, 0
    {
      ghost var s0 := State();
      var sym :- symbolTable.Lookup(name);
      ghost var g_reg := Alloc(State());
      var reg := registerAllocator.AllocateTemp();
      assert reg == g_reg.name && State() == g_reg.st;
      ghost var a := Alloc(s0);
      assert a == Named(State(), reg);
      if sym.isArray {
        var la := "    la    " + reg + ", " + name;
        Emit(la);
        ghost var s1 := State();
        assert s1 == CodeGen.Emit(a.st, [la]);
        if index.Some? {
          var idx :- GenerateExpression(index.value);
          ghost var s2 := State();
          ghost var g_off := Alloc(State());
          var off := registerAllocator.AllocateTemp();
          assert off == g_off.name && State() == g_off.st;
          var lines := [OffsetLine(sym.typ, off, idx), Ins3("add   ", reg, reg, off),
                        "    " + LoadOp(sym.typ) + "    " + reg + ", 0(" + reg + ")"];
          EmitLines(lines);
          assert GenExpr(Context(), s1, index.value) == Ok(Named(s2, idx));
          assert State() == CodeGen.Emit(Alloc(s2).st, lines);
        }
      } else {
        Emit("    " + LoadOp(sym.typ) + "    " + reg + ", " + name);
      }
      r := Ok(reg);
    }

    method StoreVariable(name: string, index: Option<Expr>, src: string) returns (r: Result<()>)
      requires Valid()
      modifies this, registerAllocator
      ensures Valid() && Context() == old(Context()) && dataSection == old(dataSection)
      ensures Reaches(CodeGen.StoreVariable(Context(), old(State()), name, index, src), r)
      decreases index, 0
    {
      ghost var s0 := State();
      var sym :- symbolTable.Lookup(name);
      if sym.isArray && index.Some? {
        ghost var g_base := Alloc(State());
        var base := registerAllocator.AllocateTemp();
        assert base == g_base.name && State() == g_base.st;
        ghost var b := Alloc(s0);
        assert b == Named(State(), base);
        var idx :- GenerateExpression(index.value);
        ghost var s2 := State();
        ghost var g_off := Alloc(State());
        var off := registerAllocator.AllocateTemp();
        assert off == g_off.name && State() == g_off.st;
        var lines := ["    la    " + base + ", " + name, OffsetLine(sym.typ, off, idx), Ins3("add   ", base, base, off),
                            "    " + StoreOp(sym.typ) + "    " + src + ", 0(" + base + ")"];
        EmitLines(lines);
        assert GenExpr(Context(), b.st, index.value) == Ok(Named(s2, idx));
        assert State() == CodeGen.Emit(Alloc(s2).st, lines);
      } else {
        Emit("    " + StoreOp(sym.typ) + "    " + src + ", " + name);
      }
      r := Ok(());
    }

    // -------------------------------------------------------------------
    // Statements
    // -------------------------------------------------------------------

    method GenerateStatement(s: Stmt) returns (r: Result<()>)
      requires Valid()
      modifies this, registerAllocator
      ensures Valid() && Context() == old(Context()) && dataSection == old(dataSection)
      ensures Reaches(GenStmt(Context(), old(State()), s), r)
      decreases s, 2
    {
      if s.IfStatement? {
        r := GenerateIf(s);
      } else if s.ForLoop? {
        r := GenerateFor(s);
      } else if s.WhileLoop? {
        r := GenerateWhile(s);
      } else if s.DoWhileLoop? {
        r := GenerateDoWhile(s);
      } else if s.Block? {
        r := GenerateStatements(s.statements);
      } else {
        r := GenerateSimple(s);
      }
    }

    /** The statements of `generateStatement` that hold no other statement. */
    method GenerateSimple(s: Stmt) returns (r: Result<()>)
      requires Valid() && !Compound(s)
      modifies this, registerAllocator
      ensures Valid() && Context() == old(Context()) && dataSection == old(dataSection)
      ensures Reaches(GenSimple(Context(), old(State()), s), r)
    {
      match s
      case Declaration(_, _, _, _, _, _, _) => r := GenerateDeclaration(s);
      case Assignment(_, _, _, _, _, _) => r := GenerateAssignment(s);
      case Printf(_, _, _, _) => r := GeneratePrintf(s);
      case Scanf(_, _, _, _) => r := GenerateScanf(s);
      case ReturnStatement(_, _, _) => r := GenerateReturn(s);
      case ExpressionStatement(e, _, _) =>
        var reg :- GenerateExpression(e);
        r := Ok(());
    }

    /** The `forEach` over a statement list. */
    method GenerateStatements(ss: seq<Stmt>) returns (r: Result<()>)
      requires Valid()
      modifies this, registerAllocator
      ensures Valid() && Context() == old(Context()) && dataSection == old(dataSection)
      ensures Reaches(GenStmts(Context(), old(State()), ss), r)
      decreases ss, 0
    {
      ghost var s0 := State();
      var i := 0;
      assert ss[0..] == ss;
      while i < |ss|
        invariant Valid() && Context() == old(Context()) && dataSection == old(dataSection)
        invariant i <= |ss|
        invariant GenStmts(Context(), s0, ss) == GenStmts(Context(), State(), ss[i..])
      {
        assert ss[i..][0] == ss[i] && ss[i..][1..] == ss[i + 1..];
        var u :- GenerateStatement(ss[i]);
        i := i + 1;
      }
      r := Ok(());
    }

    method GenerateDeclaration(s: Stmt) returns (r: Result<()>)
      requires Valid() && s.Declaration?
      modifies this, registerAllocator
      ensures Valid() && Context() == old(Context()) && dataSection == old(dataSection)
      ensures Reaches(GenDeclaration(Context(), old(State()), s), r)
    {
      match s.initialValue
      case None =>
        r := Ok(());
      case Some(e) =>
        var reg :- GenerateExpression(e);
        r := StoreVariable(s.identifier, None, reg);
    }

    method GenerateAssignment(s: Stmt) returns (r: Result<()>)
      requires Valid() && s.Assignment?
      modifies this, registerAllocator
      ensures Valid() && Context() == old(Context()) && dataSection == old(dataSection)
      ensures Reaches(GenAssignment(Context(), old(State()), s), r)
    {
      Emit("    # Assignment: " + s.identifier + " " + s.operator);
      var rhs :- GenerateExpression(s.expression);
      if s.operator == "=" {
        r := StoreVariable(s.identifier, s.arrayIndex, rhs);
      } else if s.operator in ["+=", "-=", "*=", "/=", "%="] {
        r := GenerateCompound(s, rhs);
      } else {
        r := Ok(());
      }
    }

    /** The compound-operator branches of `generateAssignment`. */
    method GenerateCompound(s: Stmt, rhs: string) returns (r: Result<()>)
      requires Valid() && s.Assignment?
      modifies this, registerAllocator
      ensures Valid() && Context() == old(Context()) && dataSection == old(dataSection)
      ensures Reaches(GenCompound(Context(), old(State()), s, rhs), r)
    {
      var v :- LoadVariable(s.identifier, s.arrayIndex);
      var res := Combine(s.operator, v, rhs);
      r := StoreVariable(s.identifier, s.arrayIndex, res);
    }

    /** The arithmetic of the compound branches of `generateAssignment`. */
    method Combine(op: string, v: string, rhs: string) returns (res: string)
      requires Valid()
      modifies this, registerAllocator
      ensures Valid() && Context() == old(Context()) && dataSection == old(dataSection)
      ensures Named(State(), res) == CodeGen.Combine(old(State()), op, v, rhs)
    {
      if op in ["+=", "-=", "*="] {
        ghost var g_res := Alloc(State());
        res := registerAllocator.AllocateTemp();
        assert res == g_res.name && State() == g_res.st;
        Emit(CompoundLine(op, res, v, rhs));
      } else {
        Emit("    div   " + v + ", " + rhs);
        ghost var g_res := Alloc(State());
        res := registerAllocator.AllocateTemp();
        assert res == g_res.name && State() == g_res.st;
        Emit((if op == "/=" then "    mflo  " else "    mfhi  ") + res);
      }
    }

    method GenerateIf(s: Stmt) returns (r: Result<()>)
      requires Valid() && s.IfStatement?
      modifies this, registerAllocator
      ensures Valid() && Context() == old(Context()) && dataSection == old(dataSection)
      ensures Reaches(GenIf(Context(), old(State()), s), r)
      decreases s, 1
    {
      ghost var el := CodeGen.NewLabel(State(), "else");
      ghost var en := CodeGen.NewLabel(el.st, "endif");
      var elseLabel := NewLabel("else");
      var endLabel := NewLabel("endif");
      Emit("    # If statement");
      ghost var s1 := State();
      assert s1 == CodeGen.Emit(en.st, ["    # If statement"]) && elseLabel == el.name && endLabel == en.name;
      var cond :- GenerateExpression(s.condition);
      ghost var s2 := State();
      assert GenExpr(Context(), s1, s.condition) == Ok(Named(s2, cond));
      var hasElse := s.elseBlock.Else? && |s.elseBlock.statements| > 0;
      Emit(BranchIfZero(cond, if hasElse then elseLabel else endLabel));
      ghost var s3 := State();
      r := GenerateIfBranches(s, elseLabel, endLabel);
      assert GenIf(Context(), old(State()), s) == GenIfBranches(Context(), s3, s, elseLabel, endLabel);
    }

    /** The part of `generateIf` after the condition test. */
    method GenerateIfBranches(s: Stmt, elseLabel: string, endLabel: string) returns (r: Result<()>)
      requires Valid() && s.IfStatement?
      modifies this, registerAllocator
      ensures Valid() && Context() == old(Context()) && dataSection == old(dataSection)
      ensures Reaches(GenIfBranches(Context(), old(State()), s, elseLabel, endLabel), r)
      decreases s, 0
    {
      var u :- GenerateStatements(s.thenBlock);
      u :- GenerateElse(s.elseBlock, elseLabel, endLabel);
      Emit(endLabel + ":");
      r := Ok(());
    }

    method GenerateElse(b: Else, elseLabel: string, endLabel: string) returns (r: Result<()>)
      requires Valid()
      modifies this, registerAllocator
      ensures Valid() && Context() == old(Context()) && dataSection == old(dataSection)
      ensures Reaches(GenElse(Context(), old(State()), b, elseLabel, endLabel), r)
      decreases b, 0
    {
      if b.Else? && |b.statements| > 0 {
        EmitLines([Jump(endLabel), elseLabel + ":"]);
        r := GenerateStatements(b.statements);
      } else {
        r := Ok(());
      }
    }

    method GenerateFor(s: Stmt) returns (r: Result<()>)
      requires Valid() && s.ForLoop?
      modifies this, registerAllocator
      ensures Valid() && Context() == old(Context()) && dataSection == old(dataSection)
      ensures Reaches(GenFor(Context(), old(State()), s), r)
      decreases s, 1
    {
      ghost var start := CodeGen.NewLabel(State(), "for_start");
      ghost var end := CodeGen.NewLabel(start.st, "for_end");
      var startLabel := NewLabel("for_start");
      var endLabel := NewLabel("for_end");
      Emit("    # For loop");
      ghost var s1 := State();
      assert s1 == CodeGen.Emit(end.st, ["    # For loop"]) && startLabel == start.name && endLabel == end.name;
      var u :- GenerateOptStatement(s.init);
      ghost var s2 := State();
      assert GenOptStmt(Context(), s1, s.init) == Ok(s2);
      Emit(startLabel + ":");
      ghost var s3 := State();
      r := GenerateForRest(s, startLabel, endLabel);
      assert GenFor(Context(), old(State()), s) == GenForRest(Context(), s3, s, startLabel, endLabel);
    }

    /** The part of `generateFor` after the start label. */
    method GenerateForRest(s: Stmt, startLabel: string, endLabel: string) returns (r: Result<()>)
      requires Valid() && s.ForLoop?
      modifies this, registerAllocator
      ensures Valid() && Context() == old(Context()) && dataSection == old(dataSection)
      ensures Reaches(GenForRest(Context(), old(State()), s, startLabel, endLabel), r)
      decreases s, 0
    {
      var u :- GenerateLoopTest(s.loopCondition, endLabel);
      u :- GenerateStatements(s.body);
      u :- GenerateOptStatement(s.update);
      EmitLines([Jump(startLabel), endLabel + ":"]);
      r := Ok(());
    }

    /** The `if (node.init)` and `if (node.update)` of `generateFor`. */
    method GenerateOptStatement(o: Option<Stmt>) returns (r: Result<()>)
      requires Valid()
      modifies this, registerAllocator
      ensures Valid() && Context() == old(Context()) && dataSection == old(dataSection)
      ensures Reaches(GenOptStmt(Context(), old(State()), o), r)
      decreases o, 0
    {
      match o
      case None => r := Ok(());
      case Some(s) => r := GenerateStatement(s);
    }

    /** The `if (node.condition)` of `generateFor`. */
    method GenerateLoopTest(cond: Option<Expr>, endLabel: string) returns (r: Result<()>)
      requires Valid()
      modifies this, registerAllocator
      ensures Valid() && Context() == old(Context()) && dataSection == old(dataSection)
      ensures Reaches(GenLoopTest(Context(), old(State()), cond, endLabel), r)
    {
      match cond
      case None => r := Ok(());
      case Some(e) =>
        var reg :- GenerateExpression(e);
        Emit(BranchIfZero(reg, endLabel));
        r := Ok(());
    }

    method GenerateWhile(s: Stmt) returns (r: Result<()>)
      requires Valid() && s.WhileLoop?
      modifies this, registerAllocator
      ensures Valid() && Context() == old(Context()) && dataSection == old(dataSection)
      ensures Reaches(GenWhile(Context(), old(State()), s), r)
      decreases s, 1
    {
      ghost var start := CodeGen.NewLabel(State(), "while_start");
      ghost var end := CodeGen.NewLabel(start.st, "while_end");
      var startLabel := NewLabel("while_start");
      var endLabel := NewLabel("while_end");
      EmitLines(["    # While loop", startLabel + ":"]);
      ghost var s1 := State();
      assert s1 == CodeGen.Emit(end.st, ["    # While loop", start.name + ":"]) && endLabel == end.name;
      var cond :- GenerateExpression(s.condition);
      ghost var s2 := State();
      assert GenExpr(Context(), s1, s.condition) == Ok(Named(s2, cond));
      Emit(BranchIfZero(cond, endLabel));
      ghost var s3 := State();
      var u :- GenerateStatements(s.body);
      ghost var s4 := State();
      assert GenStmts(Context(), s3, s.body) == Ok(s4);
      EmitLines([Jump(startLabel), endLabel + ":"]);
      r := Ok(());
    }

    method GenerateDoWhile(s: Stmt) returns (r: Result<()>)
      requires Valid() && s.DoWhileLoop?
      modifies this, registerAllocator
      ensures Valid() && Context() == old(Context()) && dataSection == old(dataSection)
      ensures Reaches(GenDoWhile(Context(), old(State()), s), r)
      decreases s, 1
    {
      ghost var start := CodeGen.NewLabel(State(), "do_start");
      ghost var end := CodeGen.NewLabel(start.st, "do_end");
      var startLabel := NewLabel("do_start");
      var endLabel := NewLabel("do_end");
      EmitLines(["    # Do-while loop", startLabel + ":"]);
      ghost var s1 := State();
      assert s1 == CodeGen.Emit(end.st, ["    # Do-while loop", start.name + ":"]) && endLabel == end.name;
      var u :- GenerateStatements(s.body);
      ghost var s2 := State();
      assert GenStmts(Context(), s1, s.body) == Ok(s2);
      var cond :- GenerateExpression(s.condition);
      ghost var s3 := State();
      assert GenExpr(Context(), s2, s.condition) == Ok(Named(s3, cond));
      EmitLines(["    bne   " + cond + ", $zero, " + startLabel, endLabel + ":"]);
      r := Ok(());
    }

    /** `generatePrintf`: the `forEach` over the conversions, then the newline or space print. */
    method GeneratePrintf(s: Stmt) returns (r: Result<()>)
      requires Valid() && s.Printf?
      modifies this, registerAllocator
      ensures Valid() && Context() == old(Context()) && dataSection == old(dataSection)
      ensures Reaches(GenPrintf(Context(), old(State()), s), r)
    {
      Emit("    # Printf");
      ghost var s1 := State();
      var specs := FormatSpecs(s.formatString, PrintfLetters);
      var exprs := s.expressions;
      var i := 0;
      assert specs[0..] == specs && Drop(exprs, 0) == exprs;
      while i < |specs|
        invariant Valid() && Context() == old(Context()) && dataSection == old(dataSection)
        invariant i <= |specs|
        invariant PrintArgs(Context(), s1, specs, exprs) == PrintArgs(Context(), State(), specs[i..], Drop(exprs, i))
      {
        assert specs[i..][0] == specs[i] && specs[i..][1..] == specs[i + 1..];
        if i < |exprs| {
          assert Drop(exprs, i)[0] == exprs[i] && Drop(exprs, i)[1..] == Drop(exprs, i + 1);
          var reg :- GenerateExpression(exprs[i]);
          EmitLines(PrintLines(specs[i], reg));
        }
        i := i + 1;
      }
      EmitLines(FormatTail(s.formatString));
      r := Ok(());
    }

    /** `generateScanf`: the `forEach` over the conversions; `%d` and `%c` read into `$v0` and store it. */
    method GenerateScanf(s: Stmt) returns (r: Result<()>)
      requires Valid() && s.Scanf?
      modifies this, registerAllocator
      ensures Valid() && Context() == old(Context()) && dataSection == old(dataSection)
      ensures Reaches(GenScanf(Context(), old(State()), s), r)
    {
      Emit("    # Scanf");
      ghost var s1 := State();
      var specs := FormatSpecs(s.formatString, ScanfLetters);
      var ids := s.identifiers;
      var i := 0;
      assert specs[0..] == specs && Drop(ids, 0) == ids;
      while i < |specs|
        invariant Valid() && Context() == old(Context()) && dataSection == old(dataSection)
        invariant i <= |specs|
        invariant ScanArgs(Context(), s1, specs, ids) == ScanArgs(Context(), State(), specs[i..], Drop(ids, i))
      {
        assert specs[i..][0] == specs[i] && specs[i..][1..] == specs[i + 1..];
        if i < |ids| {
          assert Drop(ids, i)[0] == ids[i] && Drop(ids, i)[1..] == Drop(ids, i + 1);
          if specs[i] == 'd' || specs[i] == 'c' {
            EmitLines(ReadLines(specs[i]));
            var u :- StoreVariable(ids[i], None, "$v0");
          }
        }
        i := i + 1;
      }
      r := Ok(());
    }

    method GenerateReturn(s: Stmt) returns (r: Result<()>)
      requires Valid() && s.ReturnStatement?
      modifies this, registerAllocator
      ensures Valid() && Context() == old(Context()) && dataSection == old(dataSection)
      ensures Reaches(GenReturn(Context(), old(State()), s), r)
    {
      Emit("    # Return statement");
      if s.returned.Some? {
        var reg :- GenerateExpression(s.returned.value);
        Emit("    move  $v0, " + reg);
      }
      EmitLines(ReturnLines(Context()));
      r := Ok(());
    }

    // -------------------------------------------------------------------
    // Functions, sections and the whole output
    // -------------------------------------------------------------------

    /**
     * `generateFunction`: the allocator restarts, the entry and the body are
     * emitted with the function's name as the current one, then the default
     * exit; afterwards the generator is outside any function again.
     */
    method GenerateFunction(f: FunctionDecl) returns (r: Result<()>)
      requires Valid()
      modifies this, registerAllocator
      ensures Valid() && dataSection == old(dataSection)
      ensures Reaches(GenFunction(symbolTable, old(State()), f), r)
      ensures r.Ok? ==> Context() == Env(symbolTable, false, None)
    {
      ghost var s0 := State();
      EnterFunction(f);
      ghost var s1 := State();
      var u :- GenerateStatements(f.bodyStatements);
      assert GenStmts(FunctionEnv(symbolTable, f), s1, f.bodyStatements) == Ok(State());
      EmitLines([""] + FunctionExit(f.name) + [""]);
      currentFunctionName := None;
      inFunction := false;
      r := Ok(());
    }

    /** The start of `generateFunction`: the current function is set, the allocator reset, the entry emitted. */
    method EnterFunction(f: FunctionDecl)
      requires Valid()
      modifies this, registerAllocator
      ensures Valid() && dataSection == old(dataSection) && Context() == FunctionEnv(symbolTable, f)
      ensures State() == CodeGen.Emit(old(State()).(temp := 0), FunctionEntry(symbolTable, f))
    {
      ghost var s0 := State();
      currentFunctionName := Some(f.name);
      inFunction := true;
      registerAllocator.Reset();
      assert State() == s0.(temp := 0);
      var entry := FunctionHeader(f.name) + (if f.name != "main" then Prologue else []);
      EmitLines(entry);
      ghost var s1 := State();
      assert s1 == CodeGen.Emit(s0.(temp := 0), entry);
      EmitParameterBlock(f.params);
      Emit("    # Function body");
      ghost var entryLines := entry + ParamBlock(symbolTable, f.params) + ["    # Function body"];
      assert FunctionEntry(symbolTable, f) == entryLines;
      assert textSection == s0.text + entryLines;
    }

    /** The parameter stores of `generateFunction`, between a heading and a blank line, when there are parameters. */
    method EmitParameterBlock(ps: seq<Param>)
      requires Valid()
      modifies this
      ensures Valid() && textSection == old(textSection) + ParamBlock(symbolTable, ps)
      ensures labelCounter == old(labelCounter) && dataSection == old(dataSection) && Context() == old(Context())
    {
      if |ps| > 0 {
        Emit("    # Store function parameters");
        StoreParameters(ps);
        Emit("");
      }
    }

    /** The `forEach` over the parameters: the first four are stored, each only when the table knows its name. */
    method StoreParameters(ps: seq<Param>)
      requires Valid()
      modifies this
      ensures Valid() && textSection == old(textSection) + ParamLines(symbolTable, ps, 0)
      ensures labelCounter == old(labelCounter) && dataSection == old(dataSection) && Context() == old(Context())
    {
      var i := 0;
      assert ps[0..] == ps;
      while i < |ps|
        invariant i <= |ps|
        invariant old(textSection) + ParamLines(symbolTable, ps, 0) == textSection + ParamLines(symbolTable, ps[i..], i)
        invariant labelCounter == old(labelCounter) && dataSection == old(dataSection) && Context() == old(Context())
      {
        assert ps[i..][0] == ps[i] && ps[i..][1..] == ps[i + 1..];
        if i < 4 {
          var p := ps[i];
          var sym := symbolTable.Lookup(p.name);
          if sym.Ok? {
            Emit("    " + StoreOp(p.typ) + "    $a" + NatToString(i) + ", " + p.name + "    # param: " + p.name);
          }
        }
        i := i + 1;
      }
    }

    /**
     * `generateTextSection`: with functions, `main` (if any) first, then the
     * others in order, then a stub `main` when there was none; without
     * functions, the top-level statements under `main:`.
     */
    method GenerateTextSection() returns (r: Result<()>)
      requires Valid() && Context() == Env(symbolTable, false, None)
      modifies this, registerAllocator
      ensures Valid() && dataSection == old(dataSection)
      ensures Reaches(TextSection(symbolTable, ast, old(State())), r)
    {
      EmitLines(TextHeader);
      if |ast.functions| > 0 {
        var main := FindMain(ast.functions);
        if main.Some? {
          var u :- GenerateFunction(main.value);
        }
        ghost var s1 := State();
        var u :- GenerateFunctions(NonMain(ast.functions));
        if main.None? {
          EmitLines(NoMainStub);
        }
      } else {
        Emit("main:");
        var u :- GenerateStatements(ast.statements);
        EmitLines(ProgramExit);
      }
      r := Ok(());
    }

    /** The `forEach` of `generateTextSection` over the functions other than `main`. */
    method GenerateFunctions(fs: seq<FunctionDecl>) returns (r: Result<()>)
      requires Valid() && Context() == Env(symbolTable, false, None)
      modifies this, registerAllocator
      ensures Valid() && dataSection == old(dataSection)
      ensures Reaches(GenFunctions(symbolTable, old(State()), fs), r)
      ensures r.Ok? ==> Context() == Env(symbolTable, false, None)
    {
      ghost var s0 := State();
      var i := 0;
      assert fs[0..] == fs;
      while i < |fs|
        invariant Valid() && dataSection == old(dataSection) && Context() == Env(symbolTable, false, None)
        invariant i <= |fs|
        invariant GenFunctions(symbolTable, s0, fs) == GenFunctions(symbolTable, State(), fs[i..])
      {
        ghost var before := State();
        assert fs[i..][0] == fs[i] && fs[i..][1..] == fs[i + 1..];
        var u := GenerateFunction(fs[i]);
        if u.Err? {
          assert GenFunctions(symbolTable, before, fs[i..]) == Err(u.msg);
          return Err(u.msg);
        }
        assert GenFunctions(symbolTable, before, fs[i..]) == GenFunctions(symbolTable, State(), fs[i + 1..]);
        i := i + 1;
      }
      r := Ok(());
    }

    /** `generateDataSection`: `.data`, one line per global in definition order, then the print strings. */
    method GenerateDataSection()
      requires symbolTable.Valid()
      modifies this
      ensures dataSection == old(dataSection) + DataSection(symbolTable)
      ensures textSection == old(textSection) && labelCounter == old(labelCounter) && Context() == old(Context())
    {
      dataSection := dataSection + [".data"];
      PushGlobals(symbolTable.GlobalSymbols());
      dataSection := dataSection + DataTail;
    }

    /** The `forEach` over the globals of `generateDataSection`. */
    method PushGlobals(globals: seq<VariableSymbol>)
      modifies this
      ensures dataSection == old(dataSection) + VarLines(globals)
      ensures textSection == old(textSection) && labelCounter == old(labelCounter) && Context() == old(Context())
    {
      var i := 0;
      assert globals[0..] == globals;
      while i < |globals|
        invariant i <= |globals|
        invariant old(dataSection) + VarLines(globals) == dataSection + VarLines(globals[i..])
        invariant textSection == old(textSection) && labelCounter == old(labelCounter) && Context() == old(Context())
      {
        assert globals[i..][0] == globals[i] && globals[i..][1..] == globals[i + 1..];
        assert VarLines(globals[i..]) == VarLine(globals[i]) + VarLines(globals[i + 1..]);
        dataSection := dataSection + VarLine(globals[i]);
        i := i + 1;
      }
      assert globals[i..] == [];
    }

    /** `generate` on a new generator: the data section, the text section, the joined output. */
    method Generate() returns (r: Result<string>)
      requires Valid() && symbolTable.Valid()
      requires State() == Start && dataSection == [] && Context() == Env(symbolTable, false, None)
      modifies this, registerAllocator
      ensures r == CodeGen.Generate(symbolTable, ast)
      ensures Valid()
      ensures r.Ok? ==> dataSection == DataSection(symbolTable) && TextSection(symbolTable, ast, Start) == Ok(State())
    {
      GenerateDataSection();
      assert State() == Start && dataSection == DataSection(symbolTable);
      var u :- GenerateTextSection();
      assert dataSection == DataSection(symbolTable);
      assert TextSection(symbolTable, ast, Start) == Ok(State());
      r := Ok(AssembleOutput());
    }

    /** `assembleOutput`. */
    function AssembleOutput(): string
      reads this
    {
      Assemble(dataSection, textSection)
    }

    /** `getStats`: the sizes of the two sections, the labels taken and the allocator's figures. */
    function GetStats(): (st: GeneratorStats)
      reads this, registerAllocator
      ensures st.dataLines == |dataSection| && st.textLines == |textSection|
      ensures st.totalLines == st.dataLines + st.textLines && st.labelsGenerated == labelCounter
      ensures st.registerStats.totalAllocations == registerAllocator.usageCount
    {
      GeneratorStats(|dataSection|, |textSection|, |dataSection| + |textSection|, labelCounter, registerAllocator.GetStats())
    }
  }
}
