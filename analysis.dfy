/*
 * What the semantic analyzer computes, as functions of the tree and of the
 * analyzer's state (its flat table and its warning list).  The walk visits
 * statements and expressions in source order; a failed variable lookup
 * aborts the whole analysis, an unknown function only adds a warning.
 */
module Analysis {
  import opened Util
  import opened Ast
  import opened Symbols

  /** The analyzer's state: its table and its `warnings` list. */
  datatype AState = AState(table: Table, warnings: seq<string>)

  function InitialState(): AState
  {
    AState(EmptyTable(), [])
  }

  // ---------------------------------------------------------------------
  // The walk
  // ---------------------------------------------------------------------

  /** The only error the analyzer raises: a variable that was never defined. */
  ghost predicate ReportsUndefined(msg: string)
  {
    exists name :: msg == UndefinedVariable(name)
  }

  /** A variable use: aborts unless the name is defined. */
  function Require(st: AState, name: string): (r: Result<AState>)
    ensures r.Err? ==> ReportsUndefined(r.msg)
  {
    match st.table.Lookup(name)
    case Ok(_) => Ok(st)
    case Err(m) => Err(m)
  }

  /** A call site: a function name that is not registered adds its message as a warning. */
  function CheckCall(st: AState, name: string): AState
  {
    match st.table.LookupFunction(name)
    case Ok(_) => st
    case Err(m) => st.(warnings := st.warnings + [m])
  }

  /** `_analyzeExpression`; the index of an array access is not visited. */
  function AnalyzeExpr(st: AState, e: Expr): (r: Result<AState>)
    ensures r.Err? ==> ReportsUndefined(r.msg)
    decreases e
  {
    match e
    case Identifier(name, _, _, _) => Require(st, name)
    case Literal(_, _, _, _) => Ok(st)
    case BinaryExpression(l, _, r, _, _) =>
      var s1 :- AnalyzeExpr(st, l);
      AnalyzeExpr(s1, r)
    case UnaryExpression(_, o, _, _) => AnalyzeExpr(st, o)
    case FunctionCall(name, args, _, _) => AnalyzeExprs(CheckCall(st, name), args)
  }

  function AnalyzeExprs(st: AState, es: seq<Expr>): (r: Result<AState>)
    ensures r.Err? ==> ReportsUndefined(r.msg)
    decreases es
  {
    if es == [] then Ok(st)
    else
      var s1 :- AnalyzeExpr(st, es[0]);
      AnalyzeExprs(s1, es[1..])
  }

  function AnalyzeOptExpr(st: AState, e: Option<Expr>): (r: Result<AState>)
    ensures r.Err? ==> ReportsUndefined(r.msg)
  {
    match e
    case None => Ok(st)
    case Some(x) => AnalyzeExpr(st, x)
  }

  /** `_handleDeclaration`: define the name first, then visit the initializer. */
  function HandleDeclaration(st: AState, d: Stmt): (r: Result<AState>)
    ensures r.Err? ==> ReportsUndefined(r.msg)
    requires d.Declaration?
  {
    var s1 := st.(table := st.table.DefineVariable(d.identifier, d.dataType, d.isArray, d.arraySize));
    AnalyzeOptExpr(s1, d.initialValue)
  }

  /** Every scanf target must be defined. */
  function RequireAll(st: AState, names: seq<string>): (r: Result<AState>)
    ensures r.Err? ==> ReportsUndefined(r.msg)
  {
    if names == [] then Ok(st)
    else
      var s1 :- Require(st, names[0]);
      RequireAll(s1, names[1..])
  }

  /** `_analyzeStatement`; the index of an assignment target is not visited. */
  function AnalyzeStmt(st: AState, s: Stmt): (r: Result<AState>)
    ensures r.Err? ==> ReportsUndefined(r.msg)
    decreases s
  {
    match s
    case Declaration(_, _, _, _, _, _, _) => HandleDeclaration(st, s)
    case Assignment(target, _, _, e, _, _) =>
      var s1 :- Require(st, target);
      AnalyzeExpr(s1, e)
    case ReturnStatement(value, _, _) => AnalyzeOptExpr(st, value)
    case IfStatement(c, thenBlock, elseBlock, _, _) =>
      var s1 :- AnalyzeExpr(st, c);
      var s2 :- AnalyzeStmts(s1, thenBlock);
      AnalyzeElse(s2, elseBlock)
    case ForLoop(init, c, update, body, _, _) =>
      var s1 :- AnalyzeOptStmt(st, init);
      var s2 :- AnalyzeOptExpr(s1, c);
      var s3 :- AnalyzeOptStmt(s2, update);
      AnalyzeStmts(s3, body)
    case WhileLoop(c, body, _, _) =>
      var s1 :- AnalyzeExpr(st, c);
      AnalyzeStmts(s1, body)
    case DoWhileLoop(body, c, _, _) =>
      var s1 :- AnalyzeStmts(st, body);
      AnalyzeExpr(s1, c)
    case Printf(_, es, _, _) => AnalyzeExprs(st, es)
    case Scanf(_, names, _, _) => RequireAll(st, names)
    case ExpressionStatement(e, _, _) => AnalyzeExpr(st, e)
    case Block(ss, _, _) => AnalyzeStmts(st, ss)
  }

  /** The optional init or update statement of a for loop. */
  function AnalyzeOptStmt(st: AState, o: Option<Stmt>): (r: Result<AState>)
    ensures r.Err? ==> ReportsUndefined(r.msg)
    decreases o
  {
    match o
    case None => Ok(st)
    case Some(s) => AnalyzeStmt(st, s)
  }

  function AnalyzeElse(st: AState, b: Else): (r: Result<AState>)
    ensures r.Err? ==> ReportsUndefined(r.msg)
    decreases b
  {
    match b
    case NoElse => Ok(st)
    case Else(ss) => AnalyzeStmts(st, ss)
  }

  function AnalyzeStmts(st: AState, ss: seq<Stmt>): (r: Result<AState>)
    ensures r.Err? ==> ReportsUndefined(r.msg)
    decreases ss
  {
    if ss == [] then Ok(st)
    else
      var s1 :- AnalyzeStmt(st, ss[0]);
      AnalyzeStmts(s1, ss[1..])
  }

  /** Parameters are defined in the same flat table, as scalars. */
  function DefineParams(t: Table, ps: seq<Param>): Table
    decreases |ps|
  {
    if ps == [] then t else DefineParams(t.DefineVariable(ps[0].name, ps[0].typ, false, NoSize), ps[1..])
  }

  /** `_analyzeFunction` */
  function AnalyzeFunction(st: AState, f: FunctionDecl): (r: Result<AState>)
    ensures r.Err? ==> ReportsUndefined(r.msg)
  {
    AnalyzeStmts(st.(table := DefineParams(st.table, f.params)), f.bodyStatements)
  }

  predicate DeclarationsOnly(ds: seq<Stmt>)
  {
    forall d <- ds :: d.Declaration?
  }

  function DeclareGlobals(st: AState, ds: seq<Stmt>): (r: Result<AState>)
    ensures r.Err? ==> ReportsUndefined(r.msg)
    requires DeclarationsOnly(ds)
    decreases |ds|
  {
    if ds == [] then Ok(st)
    else
      var s1 :- HandleDeclaration(st, ds[0]);
      DeclareGlobals(s1, ds[1..])
  }

  function RegisterFunctions(t: Table, fs: seq<FunctionDecl>): Table
    decreases |fs|
  {
    if fs == [] then t else RegisterFunctions(t.DefineFunction(fs[0].name, fs[0].returnType, fs[0].params), fs[1..])
  }

  function AnalyzeFunctions(st: AState, fs: seq<FunctionDecl>): (r: Result<AState>)
    ensures r.Err? ==> ReportsUndefined(r.msg)
    decreases |fs|
  {
    if fs == [] then Ok(st)
    else
      var s1 :- AnalyzeFunction(st, fs[0]);
      AnalyzeFunctions(s1, fs[1..])
  }

  /**
   * `analyze`: global declarations, then every function signature, then
   * every function body, then the top-level statements.
   */
  function AnalyzeProgram(st: AState, p: Program): (r: Result<AState>)
    ensures r.Err? ==> ReportsUndefined(r.msg)
    requires DeclarationsOnly(p.declarations)
  {
    var s1 :- DeclareGlobals(st, p.declarations);
    var s2 := s1.(table := RegisterFunctions(s1.table, p.functions));
    var s3 :- AnalyzeFunctions(s2, p.functions);
    AnalyzeStmts(s3, p.statements)
  }

  // ---------------------------------------------------------------------
  // What the walk visits, read off the tree
  // ---------------------------------------------------------------------

  /** Variable names an expression uses outside array indexes. */
  function Used(e: Expr): set<string>
    decreases e
  {
    match e
    case Identifier(name, _, _, _) => {name}
    case Literal(_, _, _, _) => {}
    case BinaryExpression(l, _, r, _, _) => Used(l) + Used(r)
    case UnaryExpression(_, o, _, _) => Used(o)
    case FunctionCall(_, args, _, _) => UsedAll(args)
  }

  function UsedAll(es: seq<Expr>): set<string>
    decreases es
  {
    if es == [] then {} else Used(es[0]) + UsedAll(es[1..])
  }

  /** The names at the call sites of an expression outside array indexes, in visiting order. */
  function Calls(e: Expr): seq<string>
    decreases e
  {
    match e
    case Identifier(_, _, _, _) => []
    case Literal(_, _, _, _) => []
    case BinaryExpression(l, _, r, _, _) => Calls(l) + Calls(r)
    case UnaryExpression(_, o, _, _) => Calls(o)
    case FunctionCall(name, args, _, _) => [name] + CallsAll(args)
  }

  function CallsAll(es: seq<Expr>): seq<string>
    decreases es
  {
    if es == [] then [] else Calls(es[0]) + CallsAll(es[1..])
  }

  function OptCalls(e: Option<Expr>): seq<string>
  {
    if e.Some? then Calls(e.value) else []
  }

  /** The call sites a statement contains, in visiting order. */
  function StmtCalls(s: Stmt): seq<string>
    decreases s
  {
    match s
    case Declaration(_, _, _, _, init, _, _) => OptCalls(init)
    case Assignment(_, _, _, e, _, _) => Calls(e)
    case ReturnStatement(value, _, _) => OptCalls(value)
    case IfStatement(c, thenBlock, elseBlock, _, _) =>
      Calls(c) + StmtCallsAll(thenBlock) + ElseCalls(elseBlock)
    case ForLoop(init, c, update, body, _, _) =>
      OptStmtCalls(init) + OptCalls(c) + OptStmtCalls(update) + StmtCallsAll(body)
    case WhileLoop(c, body, _, _) => Calls(c) + StmtCallsAll(body)
    case DoWhileLoop(body, c, _, _) => StmtCallsAll(body) + Calls(c)
    case Printf(_, es, _, _) => CallsAll(es)
    case Scanf(_, _, _, _) => []
    case ExpressionStatement(e, _, _) => Calls(e)
    case Block(ss, _, _) => StmtCallsAll(ss)
  }

  function OptStmtCalls(o: Option<Stmt>): seq<string>
    decreases o
  {
    match o
    case None => []
    case Some(s) => StmtCalls(s)
  }

  function ElseCalls(b: Else): seq<string>
    decreases b
  {
    match b
    case NoElse => []
    case Else(ss) => StmtCallsAll(ss)
  }

  function StmtCallsAll(ss: seq<Stmt>): seq<string>
    decreases ss
  {
    if ss == [] then [] else StmtCalls(ss[0]) + StmtCallsAll(ss[1..])
  }

  /** The names declared by a statement, including nested declarations. */
  function Declared(s: Stmt): set<string>
    decreases s
  {
    match s
    case Declaration(_, name, _, _, _, _, _) => {name}
    case IfStatement(_, thenBlock, elseBlock, _, _) =>
      DeclaredAll(thenBlock) + ElseDeclared(elseBlock)
    case ForLoop(init, _, update, body, _, _) =>
      OptDeclared(init) + OptDeclared(update) + DeclaredAll(body)
    case WhileLoop(_, body, _, _) => DeclaredAll(body)
    case DoWhileLoop(body, _, _, _) => DeclaredAll(body)
    case Block(ss, _, _) => DeclaredAll(ss)
    case _ => {}
  }

  function OptDeclared(o: Option<Stmt>): set<string>
    decreases o
  {
    match o
    case None => {}
    case Some(s) => Declared(s)
  }

  function ElseDeclared(b: Else): set<string>
    decreases b
  {
    match b
    case NoElse => {}
    case Else(ss) => DeclaredAll(ss)
  }

  function DeclaredAll(ss: seq<Stmt>): set<string>
    decreases ss
  {
    if ss == [] then {} else Declared(ss[0]) + DeclaredAll(ss[1..])
  }

  function ParamNames(ps: seq<Param>): set<string>
  {
    set p | p in ps :: p.name
  }

  function FunctionNames(fs: seq<FunctionDecl>): set<string>
  {
    set f | f in fs :: f.name
  }

  /** Parameters and body declarations of every function. */
  function FunctionDeclared(fs: seq<FunctionDecl>): set<string>
    decreases |fs|
  {
    if fs == [] then {} else ParamNames(fs[0].params) + DeclaredAll(fs[0].bodyStatements) + FunctionDeclared(fs[1..])
  }

  function BodyCalls(fs: seq<FunctionDecl>): seq<string>
    decreases |fs|
  {
    if fs == [] then [] else StmtCallsAll(fs[0].bodyStatements) + BodyCalls(fs[1..])
  }

  /** The warning messages for the call sites `names` whose function is not in `known`. */
  function Unregistered(known: set<string>, names: seq<string>): seq<string>
    decreases |names|
  {
    if names == [] then []
    else (if names[0] in known then [] else [UndefinedFunction(names[0])]) + Unregistered(known, names[1..])
  }

  // ---------------------------------------------------------------------
  // Properties
  // ---------------------------------------------------------------------

  lemma {:induction false} UnregisteredAppend(known: set<string>, a: seq<string>, b: seq<string>)
    ensures Unregistered(known, a + b) == Unregistered(known, a) + Unregistered(known, b)
    decreases |a|
  {
    if a != [] {
      assert (a + b)[0] == a[0];
      assert (a + b)[1..] == a[1..] + b;
      UnregisteredAppend(known, a[1..], b);
      var head := if a[0] in known then [] else [UndefinedFunction(a[0])];
      assert Unregistered(known, a + b) == head + (Unregistered(known, a[1..]) + Unregistered(known, b));
      assert Unregistered(known, a) == head + Unregistered(known, a[1..]);
    } else {
      assert a + b == b;
    }
  }

  /**
   * One warning per call site whose function is unknown: none when all are
   * known, one for each when none is.
   */
  lemma {:induction false} UnregisteredCounts(known: set<string>, names: seq<string>)
    ensures (forall n <- names :: n in known) <==> Unregistered(known, names) == []
    ensures (forall n <- names :: n !in known) ==> |Unregistered(known, names)| == |names|
    decreases |names|
  {
    if names != [] {
      UnregisteredCounts(known, names[1..]);
      assert forall n <- names[1..] :: n in names;
    }
  }

  /**
   * A successful expression walk leaves the table untouched and adds one
   * warning per call to an unregistered function, arguments included.
   */
  lemma {:induction false} ExprEffect(st: AState, e: Expr)
    requires AnalyzeExpr(st, e).Ok?
    ensures AnalyzeExpr(st, e).value.table == st.table
    ensures AnalyzeExpr(st, e).value.warnings == st.warnings + Unregistered(st.table.functions.Keys, Calls(e))
    decreases e
  {
    var known := st.table.functions.Keys;
    match e
    case Identifier(_, _, _, _) =>
      assert st.warnings + [] == st.warnings;
    case Literal(_, _, _, _) =>
      assert st.warnings + [] == st.warnings;
    case BinaryExpression(l, _, r, _, _) =>
      ExprEffect(st, l);
      var s1 := AnalyzeExpr(st, l).value;
      ExprEffect(s1, r);
      UnregisteredAppend(known, Calls(l), Calls(r));
      assert st.warnings + Unregistered(known, Calls(l)) + Unregistered(known, Calls(r)) ==
             st.warnings + Unregistered(known, Calls(e));
    case UnaryExpression(_, o, _, _) =>
      ExprEffect(st, o);
    case FunctionCall(name, args, _, _) =>
      CheckCallWarns(st, name);
      ExprsEffect(CheckCall(st, name), args);
      UnregisteredAppend(st.table.functions.Keys, [name], CallsAll(args));
  }

  lemma CheckCallWarns(st: AState, name: string)
    ensures CheckCall(st, name).table == st.table
    ensures CheckCall(st, name).warnings == st.warnings + Unregistered(st.table.functions.Keys, [name])
  {
    assert Unregistered(st.table.functions.Keys, [name]) ==
      (if name in st.table.functions.Keys then [] else [UndefinedFunction(name)]) + Unregistered(st.table.functions.Keys, []);
  }

  lemma {:induction false} ExprsEffect(st: AState, es: seq<Expr>)
    requires AnalyzeExprs(st, es).Ok?
    ensures AnalyzeExprs(st, es).value.table == st.table
    ensures AnalyzeExprs(st, es).value.warnings == st.warnings + Unregistered(st.table.functions.Keys, CallsAll(es))
    decreases es
  {
    if es != [] {
      ExprEffect(st, es[0]);
      ExprsEffect(AnalyzeExpr(st, es[0]).value, es[1..]);
      UnregisteredAppend(st.table.functions.Keys, Calls(es[0]), CallsAll(es[1..]));
    }
  }

  /**
   * An expression aborts exactly when it uses an undefined variable outside
   * an array index; an unknown function does not abort it.
   */
  lemma {:induction false} ExprDefined(st: AState, e: Expr)
    ensures AnalyzeExpr(st, e).Ok? <==> Used(e) <= st.table.variables.Keys
    decreases e
  {
    match e
    case Identifier(_, _, _, _) =>
    case Literal(_, _, _, _) =>
    case BinaryExpression(l, _, r, _, _) =>
      ExprDefined(st, l);
      if AnalyzeExpr(st, l).Ok? {
        ExprEffect(st, l);
        ExprDefined(AnalyzeExpr(st, l).value, r);
      }
    case UnaryExpression(_, o, _, _) =>
      ExprDefined(st, o);
    case FunctionCall(name, args, _, _) =>
      ExprsDefined(CheckCall(st, name), args);
  }

  lemma {:induction false} ExprsDefined(st: AState, es: seq<Expr>)
    ensures AnalyzeExprs(st, es).Ok? <==> UsedAll(es) <= st.table.variables.Keys
    decreases es
  {
    if es != [] {
      ExprDefined(st, es[0]);
      if AnalyzeExpr(st, es[0]).Ok? {
        ExprEffect(st, es[0]);
        ExprsDefined(AnalyzeExpr(st, es[0]).value, es[1..]);
      }
    }
  }

  /**
   * What a successful walk does to the state: functions untouched, exactly
   * the names `declared` added (earlier symbols and their order kept), and
   * one warning appended per call site in `calls` whose function is unknown.
   */
  ghost predicate Grows(st: AState, st': AState, declared: set<string>, calls: seq<string>)
  {
    TableGrows(st.table, st'.table, declared) &&
    st'.warnings == st.warnings + Unregistered(st.table.functions.Keys, calls)
  }

  /** The table part of `Grows`: only `declared` is added, nothing defined earlier changes. */
  ghost predicate TableGrows(t: Table, t': Table, declared: set<string>)
  {
    t'.functions == t.functions &&
    t'.variables.Keys == t.variables.Keys + declared &&
    (forall n | n in t.variables :: t'.variables[n] == t.variables[n]) &&
    t.order <= t'.order &&
    (t.Valid() ==> t'.Valid())
  }

  lemma TableGrowsTrans(a: Table, b: Table, c: Table, d1: set<string>, d2: set<string>)
    requires TableGrows(a, b, d1) && TableGrows(b, c, d2)
    ensures TableGrows(a, c, d1 + d2)
  {
  }

  lemma GrowsTrans(a: AState, b: AState, c: AState, d1: set<string>, c1: seq<string>, d2: set<string>, c2: seq<string>)
    requires Grows(a, b, d1, c1) && Grows(b, c, d2, c2)
    ensures Grows(a, c, d1 + d2, c1 + c2)
  {
    TableGrowsTrans(a.table, b.table, c.table, d1, d2);
    UnregisteredAppend(a.table.functions.Keys, c1, c2);
  }

  lemma GrowsRefl(st: AState)
    ensures Grows(st, st, {}, [])
  {
    assert st.warnings + [] == st.warnings;
  }

  lemma DefineGrows(st: AState, name: string, typ: string, isArray: bool, arraySize: ArraySize)
    ensures Grows(st, st.(table := st.table.DefineVariable(name, typ, isArray, arraySize)), {name}, [])
  {
    if st.table.Valid() {
      DefineVariableValid(st.table, name, typ, isArray, arraySize);
    }
    assert st.warnings + [] == st.warnings;
  }

  lemma ExprGrows(st: AState, e: Expr)
    requires AnalyzeExpr(st, e).Ok?
    ensures Grows(st, AnalyzeExpr(st, e).value, {}, Calls(e))
  {
    ExprEffect(st, e);
  }

  lemma OptExprGrows(st: AState, e: Option<Expr>)
    requires AnalyzeOptExpr(st, e).Ok?
    ensures Grows(st, AnalyzeOptExpr(st, e).value, {}, OptCalls(e))
  {
    if e.Some? {
      ExprGrows(st, e.value);
    }
  }

  lemma ExprsGrows(st: AState, es: seq<Expr>)
    requires AnalyzeExprs(st, es).Ok?
    ensures Grows(st, AnalyzeExprs(st, es).value, {}, CallsAll(es))
  {
    ExprsEffect(st, es);
  }

  lemma DeclarationGrows(st: AState, d: Stmt)
    requires d.Declaration? && HandleDeclaration(st, d).Ok?
    ensures Grows(st, HandleDeclaration(st, d).value, {d.identifier}, OptCalls(d.initialValue))
  {
    var s1 := st.(table := st.table.DefineVariable(d.identifier, d.dataType, d.isArray, d.arraySize));
    DefineGrows(st, d.identifier, d.dataType, d.isArray, d.arraySize);
    OptExprGrows(s1, d.initialValue);
    GrowsTrans(st, s1, HandleDeclaration(st, d).value, {d.identifier}, [], {}, OptCalls(d.initialValue));
    assert [] + OptCalls(d.initialValue) == OptCalls(d.initialValue);
  }

  lemma {:induction false} RequireAllKeeps(st: AState, names: seq<string>)
    ensures RequireAll(st, names).Ok? <==> (forall n <- names :: n in st.table.variables)
    ensures RequireAll(st, names).Ok? ==> RequireAll(st, names).value == st
    decreases |names|
  {
    if names != [] {
      RequireAllKeeps(st, names[1..]);
      assert forall n <- names[1..] :: n in names;
    }
  }

  /** Every successful statement walk grows the state as its declarations and call sites say. */
  lemma {:induction false} StmtGrows(st: AState, s: Stmt)
    requires AnalyzeStmt(st, s).Ok?
    ensures Grows(st, AnalyzeStmt(st, s).value, Declared(s), StmtCalls(s))
    decreases s
  {
    var r := AnalyzeStmt(st, s).value;
    match s
    case Declaration(_, _, _, _, _, _, _) =>
      DeclarationGrows(st, s);
    case Assignment(_, _, _, e, _, _) =>
      ExprGrows(st, e);
    case ReturnStatement(value, _, _) =>
      OptExprGrows(st, value);
    case IfStatement(c, thenBlock, elseBlock, _, _) =>
      ExprGrows(st, c);
      var s1 := AnalyzeExpr(st, c).value;
      StmtsGrows(s1, thenBlock);
      var s2 := AnalyzeStmts(s1, thenBlock).value;
      ElseGrows(s2, elseBlock);
      GrowsTrans(st, s1, s2, {}, Calls(c), DeclaredAll(thenBlock), StmtCallsAll(thenBlock));
      GrowsTrans(st, s2, r, DeclaredAll(thenBlock), Calls(c) + StmtCallsAll(thenBlock),
                 ElseDeclared(elseBlock), ElseCalls(elseBlock));
    case ForLoop(init, c, update, body, _, _) =>
      ForGrows(st, s);
    case WhileLoop(c, body, _, _) =>
      ExprGrows(st, c);
      var s1 := AnalyzeExpr(st, c).value;
      StmtsGrows(s1, body);
      GrowsTrans(st, s1, r, {}, Calls(c), DeclaredAll(body), StmtCallsAll(body));
    case DoWhileLoop(body, c, _, _) =>
      StmtsGrows(st, body);
      var s1 := AnalyzeStmts(st, body).value;
      ExprGrows(s1, c);
      GrowsTrans(st, s1, r, DeclaredAll(body), StmtCallsAll(body), {}, Calls(c));
      assert StmtCallsAll(body) + Calls(c) == StmtCalls(s);
    case Printf(_, es, _, _) =>
      ExprsGrows(st, es);
    case Scanf(_, names, _, _) =>
      RequireAllKeeps(st, names);
      GrowsRefl(st);
    case ExpressionStatement(e, _, _) =>
      ExprGrows(st, e);
    case Block(ss, _, _) =>
      StmtsGrows(st, ss);
  }

  lemma {:induction false} ForGrows(st: AState, s: Stmt)
    requires s.ForLoop? && AnalyzeStmt(st, s).Ok?
    ensures Grows(st, AnalyzeStmt(st, s).value, Declared(s), StmtCalls(s))
    decreases s, 0
  {
    var r := AnalyzeStmt(st, s).value;
    OptStmtGrows(st, s.init);
    var s1 := AnalyzeOptStmt(st, s.init).value;
    OptExprGrows(s1, s.loopCondition);
    var s2 := AnalyzeOptExpr(s1, s.loopCondition).value;
    GrowsTrans(st, s1, s2, OptDeclared(s.init), OptStmtCalls(s.init), {}, OptCalls(s.loopCondition));
    OptStmtGrows(s2, s.update);
    var s3 := AnalyzeOptStmt(s2, s.update).value;
    GrowsTrans(st, s2, s3, OptDeclared(s.init) + {}, OptStmtCalls(s.init) + OptCalls(s.loopCondition),
               OptDeclared(s.update), OptStmtCalls(s.update));
    StmtsGrows(s3, s.body);
    GrowsTrans(st, s3, r, OptDeclared(s.init) + {} + OptDeclared(s.update),
               OptStmtCalls(s.init) + OptCalls(s.loopCondition) + OptStmtCalls(s.update),
               DeclaredAll(s.body), StmtCallsAll(s.body));
    assert OptDeclared(s.init) + {} + OptDeclared(s.update) + DeclaredAll(s.body) == Declared(s);
  }

  lemma {:induction false} OptStmtGrows(st: AState, o: Option<Stmt>)
    requires AnalyzeOptStmt(st, o).Ok?
    ensures Grows(st, AnalyzeOptStmt(st, o).value, OptDeclared(o), OptStmtCalls(o))
    decreases o
  {
    match o
    case None =>
      GrowsRefl(st);
    case Some(s) =>
      StmtGrows(st, s);
  }

  lemma {:induction false} ElseGrows(st: AState, b: Else)
    requires AnalyzeElse(st, b).Ok?
    ensures Grows(st, AnalyzeElse(st, b).value, ElseDeclared(b), ElseCalls(b))
    decreases b
  {
    match b
    case NoElse =>
      GrowsRefl(st);
    case Else(ss) =>
      StmtsGrows(st, ss);
  }

  lemma {:induction false} StmtsGrows(st: AState, ss: seq<Stmt>)
    requires AnalyzeStmts(st, ss).Ok?
    ensures Grows(st, AnalyzeStmts(st, ss).value, DeclaredAll(ss), StmtCallsAll(ss))
    decreases ss
  {
    if ss == [] {
      GrowsRefl(st);
    } else {
      StmtGrows(st, ss[0]);
      var s1 := AnalyzeStmt(st, ss[0]).value;
      StmtsGrows(s1, ss[1..]);
      GrowsTrans(st, s1, AnalyzeStmts(st, ss).value, Declared(ss[0]), StmtCalls(ss[0]),
                 DeclaredAll(ss[1..]), StmtCallsAll(ss[1..]));
    }
  }

  lemma {:induction false} DefineParamsGrows(st: AState, ps: seq<Param>)
    ensures Grows(st, st.(table := DefineParams(st.table, ps)), ParamNames(ps), [])
    decreases |ps|
  {
    if ps == [] {
      assert ParamNames(ps) == {};
    } else {
      var s1 := st.(table := st.table.DefineVariable(ps[0].name, ps[0].typ, false, NoSize));
      DefineGrows(st, ps[0].name, ps[0].typ, false, NoSize);
      DefineParamsGrows(s1, ps[1..]);
      GrowsTrans(st, s1, st.(table := DefineParams(st.table, ps)), {ps[0].name}, [], ParamNames(ps[1..]), []);
      assert ParamNames(ps) == {ps[0].name} + ParamNames(ps[1..]);
    }
  }

  lemma {:induction false} FunctionsGrow(st: AState, fs: seq<FunctionDecl>)
    requires AnalyzeFunctions(st, fs).Ok?
    ensures Grows(st, AnalyzeFunctions(st, fs).value, FunctionDeclared(fs), BodyCalls(fs))
    decreases |fs|
  {
    if fs == [] {
      GrowsRefl(st);
    } else {
      var f := fs[0];
      var s0 := st.(table := DefineParams(st.table, f.params));
      DefineParamsGrows(st, f.params);
      StmtsGrows(s0, f.bodyStatements);
      var s1 := AnalyzeFunction(st, f).value;
      GrowsTrans(st, s0, s1, ParamNames(f.params), [], DeclaredAll(f.bodyStatements), StmtCallsAll(f.bodyStatements));
      FunctionsGrow(s1, fs[1..]);
      GrowsTrans(st, s1, AnalyzeFunctions(st, fs).value, ParamNames(f.params) + DeclaredAll(f.bodyStatements),
                 [] + StmtCallsAll(f.bodyStatements), FunctionDeclared(fs[1..]), BodyCalls(fs[1..]));
      assert [] + StmtCallsAll(f.bodyStatements) == StmtCallsAll(f.bodyStatements);
    }
  }

  lemma {:induction false} GlobalsGrow(st: AState, ds: seq<Stmt>)
    requires DeclarationsOnly(ds) && DeclareGlobals(st, ds).Ok?
    ensures Grows(st, DeclareGlobals(st, ds).value, DeclaredAll(ds), StmtCallsAll(ds))
    decreases |ds|
  {
    if ds == [] {
      GrowsRefl(st);
    } else {
      assert AnalyzeStmt(st, ds[0]) == HandleDeclaration(st, ds[0]);
      StmtGrows(st, ds[0]);
      var s1 := HandleDeclaration(st, ds[0]).value;
      GlobalsGrow(s1, ds[1..]);
      GrowsTrans(st, s1, DeclareGlobals(st, ds).value, Declared(ds[0]), StmtCalls(ds[0]),
                 DeclaredAll(ds[1..]), StmtCallsAll(ds[1..]));
    }
  }

  lemma {:induction false} RegisterFunctionsNames(t: Table, fs: seq<FunctionDecl>)
    ensures RegisterFunctions(t, fs).functions.Keys == t.functions.Keys + FunctionNames(fs)
    ensures RegisterFunctions(t, fs).variables == t.variables && RegisterFunctions(t, fs).order == t.order
    decreases |fs|
  {
    if fs == [] {
      assert FunctionNames(fs) == {};
    } else {
      RegisterFunctionsNames(t.DefineFunction(fs[0].name, fs[0].returnType, fs[0].params), fs[1..]);
      assert FunctionNames(fs) == {fs[0].name} + FunctionNames(fs[1..]);
    }
  }

  /** The names every program-level step declares: globals, parameters, body and top-level declarations. */
  function ProgramDeclared(p: Program): set<string>
  {
    DeclaredAll(p.declarations) + FunctionDeclared(p.functions) + DeclaredAll(p.statements)
  }

  /**
   * The whole analysis: every function of the program is registered, the
   * single flat table holds exactly the declared names and parameters, and
   * the warnings are one per call to an unregistered function -- where a
   * call in a global initializer sees no function at all, since globals
   * come before registration, while bodies and top-level statements see
   * every function of the program, however late it is defined.
   */
  lemma ProgramEffect(p: Program)
    requires DeclarationsOnly(p.declarations) && AnalyzeProgram(InitialState(), p).Ok?
    ensures AnalyzeProgram(InitialState(), p).value.table.Valid()
    ensures AnalyzeProgram(InitialState(), p).value.table.functions.Keys == FunctionNames(p.functions)
    ensures AnalyzeProgram(InitialState(), p).value.table.variables.Keys == ProgramDeclared(p)
    ensures AnalyzeProgram(InitialState(), p).value.warnings ==
      Unregistered({}, StmtCallsAll(p.declarations)) +
      Unregistered(FunctionNames(p.functions), BodyCalls(p.functions) + StmtCallsAll(p.statements))
  {
    var st := InitialState();
    assert st.table.functions.Keys == {};
    GlobalsGrow(st, p.declarations);
    var s1 := DeclareGlobals(st, p.declarations).value;
    var s2 := s1.(table := RegisterFunctions(s1.table, p.functions));
    RegisterFunctionsNames(s1.table, p.functions);
    FunctionsGrow(s2, p.functions);
    var s3 := AnalyzeFunctions(s2, p.functions).value;
    StmtsGrows(s3, p.statements);
    var r := AnalyzeStmts(s3, p.statements).value;
    assert AnalyzeProgram(st, p).value == r;
    GrowsTrans(s2, s3, r, FunctionDeclared(p.functions), BodyCalls(p.functions),
               DeclaredAll(p.statements), StmtCallsAll(p.statements));
    assert s1.warnings == Unregistered({}, StmtCallsAll(p.declarations));
    assert s2.table.functions.Keys == FunctionNames(p.functions);
  }

  /** Calls to functions defined later in the file, or earlier, resolve without warning. */
  lemma ForwardCallsResolve(p: Program)
    requires DeclarationsOnly(p.declarations) && AnalyzeProgram(InitialState(), p).Ok?
    requires StmtCallsAll(p.declarations) == []
    requires forall n <- BodyCalls(p.functions) + StmtCallsAll(p.statements) :: n in FunctionNames(p.functions)
    ensures AnalyzeProgram(InitialState(), p).value.warnings == []
  {
    ProgramEffect(p);
    UnregisteredCounts(FunctionNames(p.functions), BodyCalls(p.functions) + StmtCallsAll(p.statements));
  }

  /** Every parameter of every function ends up in the one flat variable table. */
  lemma ParamsInFlatTable(p: Program, i: int, j: int)
    requires DeclarationsOnly(p.declarations) && AnalyzeProgram(InitialState(), p).Ok?
    requires 0 <= i < |p.functions| && 0 <= j < |p.functions[i].params|
    ensures p.functions[i].params[j].name in AnalyzeProgram(InitialState(), p).value.table.variables
  {
    ProgramEffect(p);
    FunctionDeclaredHas(p.functions, i, j);
  }

  lemma {:induction false} FunctionDeclaredHas(fs: seq<FunctionDecl>, i: int, j: int)
    requires 0 <= i < |fs| && 0 <= j < |fs[i].params|
    ensures fs[i].params[j].name in FunctionDeclared(fs)
    decreases |fs|
  {
    if i == 0 {
      assert fs[0].params[j] in fs[0].params;
    } else {
      FunctionDeclaredHas(fs[1..], i - 1, j);
    }
  }

  /** `getStats().totalSymbols` after analysis is the number of distinct declared names and parameters. */
  lemma TotalSymbolsAfterAnalysis(p: Program)
    requires DeclarationsOnly(p.declarations) && AnalyzeProgram(InitialState(), p).Ok?
    ensures AnalyzeProgram(InitialState(), p).value.table.GetStats().totalSymbols == |ProgramDeclared(p)|
  {
    ProgramEffect(p);
  }

  /**
   * Assignment targets and scanf targets must be defined, or the analysis
   * aborts; the index of an assigned array element is not checked.
   */
  lemma TargetsMustBeDefined(st: AState, s: Stmt)
    ensures s.Assignment? ==>
      (AnalyzeStmt(st, s).Ok? <==> s.identifier in st.table.variables && Used(s.expression) <= st.table.variables.Keys)
    ensures s.Scanf? ==>
      (AnalyzeStmt(st, s).Ok? <==> forall n <- s.identifiers :: n in st.table.variables)
  {
    if s.Assignment? {
      ExprDefined(st, s.expression);
    } else if s.Scanf? {
      RequireAllKeeps(st, s.identifiers);
    }
  }
}
