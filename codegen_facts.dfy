/*
 * Properties of the code the generator emits, stated about the functions
 * of module CodeGen: label names, the call sequence, printf and scanf,
 * returns and function framing, the layout of the two sections, and the
 * character code of the `'\0'` literal.
 */
module CodegenFacts {
  import opened Util
  import opened Ast
  import opened Symbols
  import opened Registers
  import opened CodeGen

  // ---------------------------------------------------------------------
  // Labels
  // ---------------------------------------------------------------------

  /**
   * Labels taken at different counter values differ, whatever their
   * prefixes: the digits after the last `_` give the counter back. Since
   * `newLabel` only ever moves the counter up, no label is emitted twice.
   */
  lemma LabelNamesDiffer(p: string, q: string, n: nat, m: nat)
    requires n != m
    ensures LabelName(p, n) != LabelName(q, m)
  {
    var a := NatToString(n);
    var b := NatToString(m);
    if |a| < |b| {
      SeparatorAgainstDigit(p, q, a, b);
    } else if |b| < |a| {
      SeparatorAgainstDigit(q, p, b, a);
    } else {
      DigitsValueOfNatToString(n);
      DigitsValueOfNatToString(m);
      var s := LabelName(p, n);
      var t := LabelName(q, m);
      assert a != b;
      assert s[|s| - |a|..] == a;
      assert t[|t| - |b|..] == b;
    }
  }

  /** A shorter number after the separator puts the `_` where the longer one has a digit. */
  lemma SeparatorAgainstDigit(p: string, q: string, a: string, b: string)
    requires |a| < |b| && forall i :: 0 <= i < |b| ==> IsDigit(b[i])
    ensures p + "_" + a != q + "_" + b
  {
    var s := p + "_" + a;
    var t := q + "_" + b;
    if |s| == |t| {
      var k := |s| - |a| - 1;
      assert s[k] == '_';
      assert t[k] == b[|b| - |a| - 1];
    }
  }

  // ---------------------------------------------------------------------
  // Expressions
  // ---------------------------------------------------------------------

  function Num(digits: string): Expr { Literal(digits, NumberLit, 1, 1) }

  function Bin(l: Expr, op: string, r: Expr): Expr { BinaryExpression(l, op, r, 1, 1) }

  /**
   * `a + b * c`: the code of `a`, of `b` and of `c` in that order, then the
   * `mul` of the registers holding `b` and `c` into a fresh register, then
   * the `add` of `a`'s register and the product into another, which holds
   * the value. The multiplication is emitted before the addition because it
   * is the addition's right operand.
   */
  lemma MulBeforeAdd(env: Env, st: GState, a: Expr, b: Expr, c: Expr, na: Named, nb: Named, nc: Named)
    requires GenExpr(env, st, a) == Ok(na)
    requires GenExpr(env, na.st, b) == Ok(nb)
    requires GenExpr(env, nb.st, c) == Ok(nc)
    ensures var r := GenExpr(env, st, Bin(a, "+", Bin(b, "*", c)));
      var m := Alloc(nc.st).name;
      r.Ok? && r.value.name == Alloc(Alloc(nc.st).st).name &&
      r.value.st.text == nc.st.text + [Ins3("mul   ", m, nb.name, nc.name), Ins3("add   ", r.value.name, na.name, m)] &&
      st.text <= na.st.text <= nb.st.text <= nc.st.text
  {
    var m := Alloc(nc.st);
    assert BinaryLines("*", m.name, nb.name, nc.name) == [Ins3("mul   ", m.name, nb.name, nc.name)];
    var s4 := Emit(m.st, [Ins3("mul   ", m.name, nb.name, nc.name)]);
    assert GenExpr(env, na.st, Bin(b, "*", c)) == Ok(Named(s4, m.name));
    var p := Alloc(s4);
    assert BinaryLines("+", p.name, na.name, m.name) == [Ins3("add   ", p.name, na.name, m.name)];
    assert GenExpr(env, st, Bin(a, "+", Bin(b, "*", c))) == Ok(Named(Emit(p.st, [Ins3("add   ", p.name, na.name, m.name)]), p.name));
  }

  /** A number literal is one `li` of its value into the next temporary. */
  lemma LiteralCode(env: Env, st: GState, d: string)
    ensures var a := Alloc(st);
      GenExpr(env, st, Num(d)) == Ok(Named(GState(st.text + [LiteralLine(a.name, d, NumberLit)], st.labels, a.st.temp, st.usage + 1), a.name))
  {
  }

  /** Reading or writing a name the table does not hold fails with "Undefined variable 'name'". */
  lemma UnknownNameFails(env: Env, st: GState, name: string, index: Option<Expr>, src: string)
    requires name !in env.table.variables
    ensures LoadVariable(env, st, name, index) == Err(UndefinedVariable(name))
    ensures StoreVariable(env, st, name, index, src) == Err(UndefinedVariable(name))
  {
  }

  // ---------------------------------------------------------------------
  // Calls
  // ---------------------------------------------------------------------

  /** Each register is pushed by a stack decrement and an `sw`, in the order given. */
  lemma {:induction false} PushAllShape(regs: seq<string>)
    ensures |PushAll(regs)| == 2 * |regs|
    ensures forall i :: 0 <= i < |regs| ==> PushAll(regs)[2 * i] == PushSp && PushAll(regs)[2 * i + 1] == PushLine(regs[i])
  {
    if regs != [] {
      var tail := regs[1..];
      PushAllShape(tail);
      var rest := PushAll(tail);
      var all := PushAll(regs);
      assert all == [PushSp, PushLine(regs[0])] + rest;
      forall i | 1 <= i < |regs|
        ensures all[2 * i] == PushSp && all[2 * i + 1] == PushLine(regs[i])
      {
        var j := i - 1;
        assert all[2 * i] == rest[2 * j] && all[2 * i + 1] == rest[2 * j + 1];
        assert tail[j] == regs[i];
      }
    }
  }

  /** Each register is popped by an `lw` and a stack increment, the last register first. */
  lemma {:induction false} PopAllShape(regs: seq<string>)
    ensures |PopAll(regs)| == 2 * |regs|
    ensures forall i :: 0 <= i < |regs| ==> PopAll(regs)[2 * i] == PopLine(regs[|regs| - 1 - i]) && PopAll(regs)[2 * i + 1] == PopSp
  {
    if regs != [] {
      var n := |regs| - 1;
      var init := regs[..n];
      PopAllShape(init);
      var rest := PopAll(init);
      var all := PopAll(regs);
      assert all == [PopLine(regs[n]), PopSp] + rest;
      forall i | 1 <= i < |regs|
        ensures all[2 * i] == PopLine(regs[n - i]) && all[2 * i + 1] == PopSp
      {
        var j := i - 1;
        assert all[2 * i] == rest[2 * j] && all[2 * i + 1] == rest[2 * j + 1];
        assert init[|init| - 1 - j] == regs[n - i];
      }
    }
  }


  /**
   * The caller-saved pushes and pops are balanced: the register pushed
   * `i`-th is popped `i`-th from the end, as a stack requires.
   */
  lemma CallerSavedBalanced()
    ensures |PushAll(CallerSaved)| == |PopAll(CallerSaved)| == 10
    ensures forall i :: 0 <= i < 5 ==>
      PushAll(CallerSaved)[2 * i + 1] == PushLine(CallerSaved[i]) &&
      PopAll(CallerSaved)[2 * (4 - i)] == PopLine(CallerSaved[i])
  {
    PushAllShape(CallerSaved);
    PopAllShape(CallerSaved);
  }

  /** The `k`-th argument line moves the `k`-th register into `$a(i+k)`. */
  lemma {:induction false} MoveArgsShape(regs: seq<string>, i: nat)
    ensures |MoveArgs(regs, i)| == |regs|
    ensures forall k :: 0 <= k < |regs| ==>
      MoveArgs(regs, i)[k] == "    move  $a" + NatToString(i + k) + ", " + regs[k] + "    # argument " + NatToString(i + k)
    decreases |regs|
  {
    if regs != [] {
      var tail := regs[1..];
      MoveArgsShape(tail, i + 1);
      var rest := MoveArgs(tail, i + 1);
      var all := MoveArgs(regs, i);
      assert all == ["    move  $a" + NatToString(i) + ", " + regs[0] + "    # argument " + NatToString(i)] + rest;
      forall k | 1 <= k < |regs|
        ensures all[k] == "    move  $a" + NatToString(i + k) + ", " + regs[k] + "    # argument " + NatToString(i + k)
      {
        assert all[k] == rest[k - 1] && tail[k - 1] == regs[k] && i + 1 + (k - 1) == i + k;
      }
    }
  }

  /**
   * The call sequence: a comment, the saves (inside a function), the code
   * of at most four arguments left to right, the moves into `$a0`..,
   * `jal`, the restores (inside a function), and a copy of `$v0` into the
   * result register.
   */
  lemma CallSequence(env: Env, st: GState, e: Expr) returns (args: Regs)
    requires e.FunctionCall? && GenExpr(env, st, e).Ok?
    ensures var s1 := Emit(st, ["    # Call function: " + e.name] + SaveLines(env));
      var r := GenExpr(env, st, e).value;
      GenArgs(env, s1, e.args, 4) == Ok(args) && s1.text <= args.st.text &&
      |args.regs| == Min(|e.args|, 4) &&
      r.st.text == args.st.text + MoveArgs(args.regs, 0) + ["    jal   " + e.name] + RestoreLines(env) +
                   ["    move  " + r.name + ", $v0    # store return value"]
  {
    var a;
    args, a := CallSteps(env, st, e);
    var tail := MoveArgs(args.regs, 0) + ["    jal   " + e.name] + RestoreLines(env);
    var mv := "    move  " + a.name + ", $v0    # store return value";
    assert args.st.text + tail == args.st.text + MoveArgs(args.regs, 0) + ["    jal   " + e.name] + RestoreLines(env);
    assert Emit(a.st, [mv]).text == args.st.text + tail + [mv];
  }

  /** The argument registers and the result register of a call that succeeds. */
  lemma CallSteps(env: Env, st: GState, e: Expr) returns (args: Regs, a: Named)
    requires e.FunctionCall? && GenExpr(env, st, e).Ok?
    ensures GenArgs(env, Emit(st, ["    # Call function: " + e.name] + SaveLines(env)), e.args, 4) == Ok(args)
    ensures a == Alloc(Emit(args.st, MoveArgs(args.regs, 0) + ["    jal   " + e.name] + RestoreLines(env)))
    ensures GenExpr(env, st, e) == Ok(Named(Emit(a.st, ["    move  " + a.name + ", $v0    # store return value"]), a.name))
  {
    var s1 := Emit(st, ["    # Call function: " + e.name] + SaveLines(env));
    assert GenExpr(env, st, e) == GenCall(env, st, e);
    args := GenArgs(env, s1, e.args, 4).value;
    a := Alloc(Emit(args.st, MoveArgs(args.regs, 0) + ["    jal   " + e.name] + RestoreLines(env)));
  }

  // ---------------------------------------------------------------------
  // printf, scanf and return
  // ---------------------------------------------------------------------

  function Min(a: nat, b: nat): nat { if a < b then a else b }

  /**
   * printf pairs the conversions and the expressions position by position:
   * conversions without an expression, and expressions without a
   * conversion, contribute nothing.
   */
  lemma PrintArgsPairs(env: Env, st: GState, specs: seq<char>, exprs: seq<Expr>)
    ensures var n := Min(|specs|, |exprs|);
      PrintArgs(env, st, specs, exprs) == PrintArgs(env, st, specs[..n], exprs[..n])
  {
    if |exprs| <= |specs| {
      ExtraSpecsIgnored(env, st, specs, exprs);
      assert exprs[..|exprs|] == exprs;
    } else {
      ExtraExprsIgnored(env, st, specs, exprs);
      assert specs[..|specs|] == specs;
    }
  }

  /** Conversions beyond the last expression add nothing. */
  lemma {:induction false} ExtraSpecsIgnored(env: Env, st: GState, specs: seq<char>, exprs: seq<Expr>)
    requires |exprs| <= |specs|
    ensures PrintArgs(env, st, specs, exprs) == PrintArgs(env, st, specs[..|exprs|], exprs)
    decreases |exprs|
  {
    if exprs != [] {
      var sp := specs[..|exprs|];
      SliceStep(specs, |exprs|);
      PrintArgsCons(env, st, specs, exprs);
      PrintArgsCons(env, st, sp, exprs);
      var c := GenExpr(env, st, exprs[0]);
      if c.Ok? {
        var st' := Emit(c.value.st, PrintLines(specs[0], c.value.name));
        ExtraSpecsIgnored(env, st', specs[1..], exprs[1..]);
      }
    }
  }

  /** Expressions beyond the last conversion are not evaluated. */
  lemma {:induction false} ExtraExprsIgnored(env: Env, st: GState, specs: seq<char>, exprs: seq<Expr>)
    requires |specs| <= |exprs|
    ensures PrintArgs(env, st, specs, exprs) == PrintArgs(env, st, specs, exprs[..|specs|])
    decreases |specs|
  {
    if specs != [] {
      var ex := exprs[..|specs|];
      SliceStep(exprs, |specs|);
      PrintArgsCons(env, st, specs, exprs);
      PrintArgsCons(env, st, specs, ex);
      var c := GenExpr(env, st, exprs[0]);
      if c.Ok? {
        var st' := Emit(c.value.st, PrintLines(specs[0], c.value.name));
        ExtraExprsIgnored(env, st', specs[1..], exprs[1..]);
      }
    }
  }

  /** One step of printf's pairing: the first expression, its print, then the rest. */
  lemma PrintArgsCons(env: Env, st: GState, specs: seq<char>, exprs: seq<Expr>)
    requires specs != [] && exprs != []
    ensures var c := GenExpr(env, st, exprs[0]);
      PrintArgs(env, st, specs, exprs) ==
        if c.Err? then Err(c.msg)
        else PrintArgs(env, Emit(c.value.st, PrintLines(specs[0], c.value.name)), specs[1..], exprs[1..])
  {
  }

  /** The first `n` elements are the head and the first `n - 1` elements of the tail. */
  lemma SliceStep<T>(s: seq<T>, n: nat)
    requires 0 < n <= |s|
    ensures s[..n][0] == s[0] && s[..n][1..] == s[1..][..n - 1]
  {
  }

  /** scanf pairs the conversions and the variables the same way. */
  lemma {:induction false} ScanArgsPairs(env: Env, st: GState, specs: seq<char>, ids: seq<string>)
    ensures var n := Min(|specs|, |ids|);
      ScanArgs(env, st, specs, ids) == ScanArgs(env, st, specs[..n], ids[..n])
    decreases |specs|
  {
    var n := Min(|specs|, |ids|);
    if specs != [] && ids != [] {
      SliceStep(specs, n);
      SliceStep(ids, n);
      if specs[0] == 'd' || specs[0] == 'c' {
        var s1 := StoreVariable(env, Emit(st, ReadLines(specs[0])), ids[0], None, "$v0");
        if s1.Ok? {
          ScanArgsPairs(env, s1.value, specs[1..], ids[1..]);
        }
      } else {
        ScanArgsPairs(env, st, specs[1..], ids[1..]);
      }
    }
  }

  /**
   * `scanf("%d", &x)` on an `int` scalar `x`: read an int with syscall 5,
   * then store `$v0` into `x` by name.
   */
  lemma ScanfInt(env: Env, st: GState, x: string, line: int, column: int)
    requires x in env.table.variables && env.table.variables[x].typ == "int" && !env.table.variables[x].isArray
    ensures GenStmt(env, st, Scanf("%d", [x], line, column)) ==
      Ok(Emit(st, ["    # Scanf", "    li    $v0, 5    # read int", "    syscall", "    sw    $v0, " + x]))
  {
    assert FormatSpecs("%d", ScanfLetters) == ['d'];
    var s0 := Emit(st, ["    # Scanf"]);
    var s1 := Emit(s0, ReadLines('d'));
    var sym := env.table.variables[x];
    assert env.table.Lookup(x) == Ok(sym);
    assert StoreOp(sym.typ) == "sw";
    assert "    " + "sw" + "    " + "$v0" + ", " == "    sw    $v0, ";
    var stored := Emit(s1, ["    sw    $v0, " + x]);
    assert StoreVariable(env, s1, x, None, "$v0") == Ok(stored);
    assert ScanArgs(env, s0, ['d'], [x]) == ScanArgs(env, stored, [], []);
    assert stored.text == st.text + ["    # Scanf", "    li    $v0, 5    # read int", "    syscall", "    sw    $v0, " + x];
    assert GenStmt(env, st, Scanf("%d", [x], line, column)) == GenScanf(env, st, Scanf("%d", [x], line, column));
  }

  /**
   * A return ends with the exit of the function it is in: the exit
   * syscall in `main`, the epilogue restoring `$ra` and jumping back
   * anywhere else.
   */
  lemma ReturnEndsWithExit(env: Env, st: GState, s: Stmt)
    requires s.ReturnStatement? && GenReturn(env, st, s).Ok?
    ensures var text := GenReturn(env, st, s).value.text;
      var exit := if env.fnName == Some("main") then MainExit else Epilogue;
      |text| >= |st.text| + 1 + |exit| && text[|text| - |exit|..] == exit &&
      text[|st.text|] == "    # Return statement"
  {
    var exit := ReturnLines(env);
    var s0 := Emit(st, ["    # Return statement"]);
    match s.returned
    case None =>
      assert GenReturn(env, st, s).value.text == st.text + ["    # Return statement"] + exit;
    case Some(e) =>
      var c := GenExpr(env, s0, e).value;
      assert s0.text <= c.st.text;
      assert GenReturn(env, st, s).value.text == c.st.text + (["    move  $v0, " + c.name] + exit);
  }

  // ---------------------------------------------------------------------
  // Control flow
  // ---------------------------------------------------------------------

  /**
   * An if takes the two labels `else_N` and `endif_N+1`, which differ; the
   * condition's `beq` goes to the else label exactly when there is a
   * non-empty else block, to the end label otherwise, and the end label
   * closes the statement.
   */
  lemma IfBranchTarget(env: Env, st: GState, s: Stmt) returns (c: Named)
    requires s.IfStatement? && GenIf(env, st, s).Ok?
    ensures var el := LabelName("else", st.labels);
      var en := LabelName("endif", st.labels + 1);
      var hasElse := s.elseBlock.Else? && |s.elseBlock.statements| > 0;
      var text := GenIf(env, st, s).value.text;
      GenExpr(env, Emit(st.(labels := st.labels + 2), ["    # If statement"]), s.condition) == Ok(c) &&
      |c.st.text| < |text| - 1 && text[|c.st.text|] == BranchIfZero(c.name, if hasElse then el else en) &&
      text[|text| - 1] == en + ":" && el != en
  {
    var el := NewLabel(st, "else");
    var en := NewLabel(el.st, "endif");
    var s0 := Emit(en.st, ["    # If statement"]);
    c := GenExpr(env, s0, s.condition).value;
    var hasElse := s.elseBlock.Else? && |s.elseBlock.statements| > 0;
    var s1 := Emit(c.st, [BranchIfZero(c.name, if hasElse then el.name else en.name)]);
    var b := GenIfBranches(env, s1, s, el.name, en.name);
    assert GenIf(env, st, s) == b;
    var s2 := GenElse(env, GenStmts(env, s1, s.thenBlock).value, s.elseBlock, el.name, en.name).value;
    assert b.value.text == s2.text + [en.name + ":"];
    assert s1.text <= s2.text;
    LabelNamesDiffer("else", "endif", st.labels, st.labels + 1);
  }

  /**
   * A while loop: its start label right after the comment, the condition,
   * a `beq` to the end label, and at the end a jump back to the start
   * label followed by the end label; the two labels differ.
   */
  lemma WhileShape(env: Env, st: GState, s: Stmt) returns (c: Named)
    requires s.WhileLoop? && GenWhile(env, st, s).Ok?
    ensures var start := LabelName("while_start", st.labels);
      var end := LabelName("while_end", st.labels + 1);
      var text := GenWhile(env, st, s).value.text;
      GenExpr(env, Emit(st.(labels := st.labels + 2), ["    # While loop", start + ":"]), s.condition) == Ok(c) &&
      |st.text| + 2 <= |c.st.text| < |text| - 2 && text[|st.text| + 1] == start + ":" &&
      text[|c.st.text|] == BranchIfZero(c.name, end) &&
      text[|text| - 2..] == [Jump(start), end + ":"] && start != end
  {
    var start := NewLabel(st, "while_start");
    var end := NewLabel(start.st, "while_end");
    var s0 := Emit(end.st, ["    # While loop", start.name + ":"]);
    c := GenExpr(env, s0, s.condition).value;
    var s1 := Emit(c.st, [BranchIfZero(c.name, end.name)]);
    var body := GenStmts(env, s1, s.body).value;
    assert GenWhile(env, st, s) == Ok(Emit(body, [Jump(start.name), end.name + ":"]));
    assert s0.text <= c.st.text && s1.text <= body.text;
    assert s0.text[|st.text| + 1] == start.name + ":";
    LabelNamesDiffer("while_start", "while_end", st.labels, st.labels + 1);
  }

  /**
   * A do-while loop: its start label right after the comment, and at the
   * end, after the body and the condition, a `bne` back to the start label
   * followed by the end label; the two labels differ.
   */
  lemma DoWhileShape(env: Env, st: GState, s: Stmt) returns (c: Named)
    requires s.DoWhileLoop? && GenDoWhile(env, st, s).Ok?
    ensures var start := LabelName("do_start", st.labels);
      var end := LabelName("do_end", st.labels + 1);
      var text := GenDoWhile(env, st, s).value.text;
      |st.text| + 2 <= |c.st.text| && text == c.st.text + ["    bne   " + c.name + ", $zero, " + start, end + ":"] &&
      text[|st.text| + 1] == start + ":" && start != end
  {
    var start := NewLabel(st, "do_start");
    var end := NewLabel(start.st, "do_end");
    var s0 := Emit(end.st, ["    # Do-while loop", start.name + ":"]);
    var body := GenStmts(env, s0, s.body).value;
    c := GenExpr(env, body, s.condition).value;
    assert GenDoWhile(env, st, s) == Ok(Emit(c.st, ["    bne   " + c.name + ", $zero, " + start.name, end.name + ":"]));
    assert s0.text <= body.text <= c.st.text;
    assert s0.text[|st.text| + 1] == start.name + ":";
    LabelNamesDiffer("do_start", "do_end", st.labels, st.labels + 1);
  }

  /**
   * A for loop ends with a jump back to its start label `for_start_N`
   * followed by its end label `for_end_N+1`; the two labels differ.
   */
  lemma ForEnds(env: Env, st: GState, s: Stmt)
    requires s.ForLoop? && GenFor(env, st, s).Ok?
    ensures var start := LabelName("for_start", st.labels);
      var end := LabelName("for_end", st.labels + 1);
      var text := GenFor(env, st, s).value.text;
      |text| >= |st.text| + 2 && text[|text| - 2..] == [Jump(start), end + ":"] && start != end
  {
    var start := NewLabel(st, "for_start");
    var end := NewLabel(start.st, "for_end");
    var s1 := GenOptStmt(env, Emit(end.st, ["    # For loop"]), s.init).value;
    var s2 := Emit(s1, [start.name + ":"]);
    var t1 := GenLoopTest(env, s2, s.loopCondition, end.name).value;
    var t2 := GenStmts(env, t1, s.body).value;
    var t3 := GenOptStmt(env, t2, s.update).value;
    assert GenFor(env, st, s) == GenForRest(env, s2, s, start.name, end.name);
    assert GenForRest(env, s2, s, start.name, end.name) == Ok(Emit(t3, [Jump(start.name), end.name + ":"]));
    LabelNamesDiffer("for_start", "for_end", st.labels, st.labels + 1);
  }

  // ---------------------------------------------------------------------
  // Functions
  // ---------------------------------------------------------------------

  /** `s` ends with `suffix`. */
  predicate EndsWith(s: seq<string>, suffix: seq<string>)
  {
    |suffix| <= |s| && s[|s| - |suffix|..] == suffix
  }

  /** A sequence ends with whatever was appended last, and with every ending of that. */
  lemma EndsWithAppend(a: seq<string>, b: seq<string>, c: seq<string>)
    ensures EndsWith(a + b + c, c) && EndsWith(a + (b + c), c)
  {
    assert (a + b + c)[|a + b + c| - |c|..] == c;
    assert a + (b + c) == a + b + c;
  }

  /**
   * A function starts with its header, then (unless it is `main`) the
   * prologue pushing `$ra`; it ends with the exit syscall in `main` and
   * with the epilogue restoring `$ra` and returning elsewhere, followed by
   * a blank line.
   */
  lemma FunctionFrame(t: Table, st: GState, f: FunctionDecl)
    requires GenFunction(t, st, f).Ok?
    ensures var text := GenFunction(t, st, f).value.text;
      st.text + FunctionHeader(f.name) + (if f.name == "main" then [] else Prologue) <= text &&
      EndsWith(text, (if f.name == "main" then MainExit else Epilogue) + [""])
  {
    var body := FunctionBody(t, st, f);
    FrameOfParts(st.text, FunctionHeader(f.name) + (if f.name == "main" then [] else Prologue),
                 ParamBlock(t, f.params) + ["    # Function body"], body,
                 ["", if f.name == "main" then "    # Main function exit" else "    # Function epilogue"],
                 (if f.name == "main" then MainExit else Epilogue) + [""]);
  }

  /** The text of a function: its entry lines, its body's code, then its exit lines. */
  lemma FunctionBody(t: Table, st: GState, f: FunctionDecl) returns (body: seq<string>)
    requires GenFunction(t, st, f).Ok?
    ensures st.text + (FunctionHeader(f.name) + (if f.name == "main" then [] else Prologue) +
                       (ParamBlock(t, f.params) + ["    # Function body"])) <= body
    ensures GenFunction(t, st, f).value.text ==
      body + (["", if f.name == "main" then "    # Main function exit" else "    # Function epilogue"] +
              ((if f.name == "main" then MainExit else Epilogue) + [""]))
  {
    var s0 := Emit(st.(temp := 0), FunctionEntry(t, f));
    body := GenStmts(FunctionEnv(t, f), s0, f.bodyStatements).value.text;
  }

  /** Sequence bookkeeping of `FunctionFrame`. */
  lemma FrameOfParts(pre: seq<string>, head: seq<string>, rest: seq<string>, body: seq<string>,
                     mid: seq<string>, tail: seq<string>)
    requires pre + (head + rest) <= body
    ensures pre + head <= body + (mid + tail)
    ensures EndsWith(body + (mid + tail), tail)
  {
    assert pre + (head + rest) == pre + head + rest;
    EndsWithAppend(body, mid, tail);
  }

  /**
   * When the table holds every parameter, the first four parameters, and
   * no more, are stored from `$a0`..`$a3` in order, with `sw` for `int`
   * and `sb` otherwise.
   */
  lemma {:induction false} ParamStores(t: Table, ps: seq<Param>, i: nat)
    requires i <= 4
    requires forall k :: 0 <= k < |ps| ==> ps[k].name in t.variables
    ensures |ParamLines(t, ps, i)| == Min(|ps|, 4 - i)
    ensures forall k :: 0 <= k < Min(|ps|, 4 - i) ==>
      ParamLines(t, ps, i)[k] == "    " + StoreOp(ps[k].typ) + "    $a" + NatToString(i + k) + ", " + ps[k].name + "    # param: " + ps[k].name
    decreases |ps|
  {
    if ps != [] && i < 4 {
      var tail := ps[1..];
      ParamStores(t, tail, i + 1);
      var rest := ParamLines(t, tail, i + 1);
      var line := "    " + StoreOp(ps[0].typ) + "    $a" + NatToString(i) + ", " + ps[0].name + "    # param: " + ps[0].name;
      var all := ParamLines(t, ps, i);
      assert all == [line] + rest;
      forall k | 1 <= k < Min(|ps|, 4 - i)
        ensures all[k] == "    " + StoreOp(ps[k].typ) + "    $a" + NatToString(i + k) + ", " + ps[k].name + "    # param: " + ps[k].name
      {
        assert all[k] == rest[k - 1] && tail[k - 1] == ps[k] && i + 1 + (k - 1) == i + k;
      }
    }
  }

  // ---------------------------------------------------------------------
  // The text section
  // ---------------------------------------------------------------------

  /** With a function named `main`, the text section opens with `main`'s header. */
  lemma MainFirst(t: Table, prog: Program, st: GState)
    requires |prog.functions| > 0 && FindMain(prog.functions).Some? && TextSection(t, prog, st).Ok?
    ensures st.text + TextHeader + FunctionHeader("main") <= TextSection(t, prog, st).value.text
  {
    var m := FindMain(prog.functions).value;
    var s0 := Emit(st, TextHeader);
    var s1 := GenFunction(t, s0, m).value;
    FunctionFrame(t, s0, m);
    var s2 := GenFunctions(t, s1, NonMain(prog.functions)).value;
    assert TextSection(t, prog, st) == Ok(s2);
    assert s0.text + FunctionHeader("main") <= s1.text <= s2.text;
  }

  /** With functions but none named `main`, the text section ends with the stub `main` that exits. */
  lemma StubWithoutMain(t: Table, prog: Program, st: GState)
    requires |prog.functions| > 0 && FindMain(prog.functions).None? && TextSection(t, prog, st).Ok?
    ensures var text := TextSection(t, prog, st).value.text;
      |text| >= |st.text| + 3 + 4 && text[|st.text|..|st.text| + 3] == TextHeader && text[|text| - 4..] == NoMainStub
  {
    var s0 := Emit(st, TextHeader);
    var s2 := GenFunctions(t, s0, NonMain(prog.functions)).value;
    assert TextSection(t, prog, st) == Ok(Emit(s2, NoMainStub));
    assert s0.text <= s2.text;
  }

  /** Without functions, the text section is `main:`, the top-level statements, and the exit syscall. */
  lemma TopLevelOnly(t: Table, prog: Program, st: GState)
    requires |prog.functions| == 0 && TextSection(t, prog, st).Ok?
    ensures var text := TextSection(t, prog, st).value.text;
      var k := |st.text|;
      |text| >= k + 4 + |ProgramExit| && text[k..k + 4] == TextHeader + ["main:"] && text[|text| - |ProgramExit|..] == ProgramExit &&
      GenStmts(Env(t, false, None), Emit(st, TextHeader + ["main:"]), prog.statements).Ok?
  {
    var s0 := Emit(st, TextHeader);
    var s1 := GenStmts(Env(t, false, None), Emit(s0, ["main:"]), prog.statements).value;
    assert TextSection(t, prog, st) == Ok(Emit(s1, ProgramExit));
    assert Emit(s0, ["main:"]) == Emit(st, TextHeader + ["main:"]);
    assert Emit(s0, ["main:"]).text <= s1.text;
  }

  /** An empty program compiles to the data section and a `main:` that only exits. */
  lemma EmptyProgram(t: Table)
    requires t.Valid()
    ensures Generate(t, Program([], [], [])) == Ok(Assemble(DataSection(t), TextHeader + ["main:"] + ProgramExit))
  {
    var s0 := Emit(Emit(Start, TextHeader), ["main:"]);
    assert s0.text == TextHeader + ["main:"];
    assert GenStmts(Env(t, false, None), s0, []) == Ok(s0);
    assert TextSection(t, Program([], [], []), Start) == Ok(Emit(s0, ProgramExit));
    assert Emit(s0, ProgramExit).text == TextHeader + ["main:"] + ProgramExit;
  }

  // ---------------------------------------------------------------------
  // The data section
  // ---------------------------------------------------------------------

  /**
   * The globals that get a data line: every array, and the `int` and
   * `char` scalars. A `void` scalar, which the parser lets through as a
   * declaration, gets none.
   */
  function Emitted(vs: seq<VariableSymbol>): seq<VariableSymbol>
  {
    if vs == [] then []
    else (if vs[0].isArray || vs[0].typ == "int" || vs[0].typ == "char" then [vs[0]] else []) + Emitted(vs[1..])
  }

  /**
   * One data line per emitted global, in order: `.space` for an array,
   * `.word 0` for an `int`, `.byte 0` for a `char`.
   */
  lemma {:induction false} OneLinePerGlobal(vs: seq<VariableSymbol>)
    ensures |VarLines(vs)| == |Emitted(vs)|
    ensures forall i :: 0 <= i < |Emitted(vs)| ==>
      var v := Emitted(vs)[i];
      VarLines(vs)[i] ==
        if v.isArray then v.name + ": .space " + SpaceText(v.typ, v.arraySize) + "    # " + v.typ + "[" + SizeText(v.arraySize) + "]"
        else if v.typ == "int" then v.name + ": .word 0    # int"
        else v.name + ": .byte 0    # char"
  {
    if vs != [] {
      var tail := vs[1..];
      OneLinePerGlobal(tail);
      var rest := VarLines(tail);
      assert VarLines(vs) == VarLine(vs[0]) + rest;
      if vs[0].isArray || vs[0].typ == "int" || vs[0].typ == "char" {
        assert |VarLine(vs[0])| == 1;
        assert Emitted(vs) == [vs[0]] + Emitted(tail);
        forall i | 1 <= i < |Emitted(vs)|
          ensures VarLines(vs)[i] == rest[i - 1] && Emitted(vs)[i] == Emitted(tail)[i - 1]
        {
        }
      } else {
        assert VarLine(vs[0]) == [];
        assert Emitted(vs) == Emitted(tail);
      }
    }
  }

  /** A `void` scalar global is not emitted: it has no data line, so it has no storage. */
  lemma VoidScalarDropped(vs: seq<VariableSymbol>, v: VariableSymbol)
    requires !v.isArray && v.typ == "void"
    ensures Emitted(vs + [v]) == Emitted(vs)
    ensures VarLines(vs + [v]) == VarLines(vs)
  {
    GlobalAppended(vs, v);
  }

  /** The data lines of one more global follow those of the earlier ones. */
  lemma {:induction false} GlobalAppended(vs: seq<VariableSymbol>, v: VariableSymbol)
    ensures VarLines(vs + [v]) == VarLines(vs) + VarLine(v)
    ensures Emitted(vs + [v]) == Emitted(vs) + Emitted([v])
  {
    if vs != [] {
      assert (vs + [v])[1..] == vs[1..] + [v];
      GlobalAppended(vs[1..], v);
    } else {
      assert vs + [v] == [v];
    }
  }

  /** An `int` array of `n` elements reserves `4 * n` bytes, a `char` array `n`. */
  lemma ArraySpace(n: int)
    ensures SpaceText("int", Size(n)) == IntToString(4 * n)
    ensures SpaceText("char", Size(n)) == IntToString(n)
  {
  }

  // ---------------------------------------------------------------------
  // Character literals
  // ---------------------------------------------------------------------

  /** As written, `'\0'` loads 48, the code of the digit `0`, not 0. */
  lemma NulAsWritten()
    ensures CharCodeAsWritten("\\0") == Some(48)
    ensures CharCode("\\0") == Some(0)
    ensures LiteralLineAsWritten("$t0", "\\0", CharLit) == "    li    $t0, 48"
    ensures LiteralLine("$t0", "\\0", CharLit) == "    li    $t0, 0"
  {
  }

  /**
   * The two computations differ exactly on the escape `\0`: everywhere
   * else the escape table has no zero entry, so `||` changes nothing.
   */
  lemma CharCodesAgreeExceptNul(v: string)
    ensures CharCodeAsWritten(v) != CharCode(v) <==> |v| >= 2 && v[0] == '\\' && v[1] == '0'
  {
    if |v| >= 2 && v[0] == '\\' {
      var m := EscapeValue(v[1]);
      assert m.Some? && m.value == 0 <==> v[1] == '0';
    }
  }
}
