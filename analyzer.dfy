/*
 * The semantic analyzer object: it owns one flat symbol table and a warning
 * list, and walks the tree recursively, defining names and collecting
 * warnings as it goes.  Each method is proved to end in the state the
 * corresponding specification function computes, or to throw its error.
 */
module Analyzer {
  import opened Util
  import opened Ast
  import opened Symbols
  import opened Analysis

  /** A method that may throw: it either ends normally in the state `spec` computes, or throws its error. */
  ghost predicate Follows(r: Result<()>, now: AState, spec: Result<AState>)
  {
    match spec
    case Ok(s) => r.Ok? && now == s
    case Err(m) => r == Err(m)
  }

  class SemanticAnalyzer {
    const symbolTable: SymbolTable
    var warnings: seq<string>

    ghost function State(): AState
      reads this, symbolTable
    {
      AState(symbolTable.Value(), warnings)
    }

    ghost predicate Valid()
      reads this, symbolTable
    {
      symbolTable.Valid()
    }

    constructor()
      ensures Valid() && State() == InitialState() && fresh(symbolTable)
    {
      symbolTable := new SymbolTable();
      warnings := [];
    }

    /** `analyze`: globals, then all signatures, then all bodies, then the top-level statements. */
    method Analyze(p: Program) returns (r: Result<()>)
      requires Valid() && DeclarationsOnly(p.declarations)
      modifies this, symbolTable
      ensures Valid() && Follows(r, State(), AnalyzeProgram(old(State()), p))
    {
      var i := 0;
      while i < |p.declarations|
        invariant 0 <= i <= |p.declarations| && Valid()
        invariant DeclareGlobals(old(State()), p.declarations) == DeclareGlobals(State(), p.declarations[i..])
      {
        assert p.declarations[i..][1..] == p.declarations[i + 1..];
        var _ :- HandleDeclaration(p.declarations[i]);
        i := i + 1;
      }
      ghost var globals := State();
      i := 0;
      while i < |p.functions|
        invariant 0 <= i <= |p.functions| && Valid() && warnings == globals.warnings
        invariant RegisterFunctions(globals.table, p.functions) == RegisterFunctions(symbolTable.Value(), p.functions[i..])
      {
        var f := p.functions[i];
        assert p.functions[i..][1..] == p.functions[i + 1..];
        var _ := symbolTable.DefineFunction(f.name, f.returnType, f.params);
        i := i + 1;
      }
      ghost var registered := State();
      i := 0;
      while i < |p.functions|
        invariant 0 <= i <= |p.functions| && Valid()
        invariant AnalyzeFunctions(registered, p.functions) == AnalyzeFunctions(State(), p.functions[i..])
      {
        assert p.functions[i..][1..] == p.functions[i + 1..];
        var _ :- AnalyzeFunction(p.functions[i]);
        i := i + 1;
      }
      r := AnalyzeStatements(p.statements);
    }

    /** `_handleDeclaration` */
    method HandleDeclaration(d: Stmt) returns (r: Result<()>)
      requires Valid() && d.Declaration?
      modifies this, symbolTable
      ensures Valid() && Follows(r, State(), Analysis.HandleDeclaration(old(State()), d))
    {
      var _ := symbolTable.DefineVariable(d.identifier, d.dataType, d.isArray, d.arraySize);
      if d.initialValue.Some? {
        r := AnalyzeExpression(d.initialValue.value);
      } else {
        r := Ok(());
      }
    }

    /** `_analyzeFunction`: parameters join the flat table, then the body is walked. */
    method AnalyzeFunction(f: FunctionDecl) returns (r: Result<()>)
      requires Valid()
      modifies this, symbolTable
      ensures Valid() && Follows(r, State(), Analysis.AnalyzeFunction(old(State()), f))
    {
      var i := 0;
      while i < |f.params|
        invariant 0 <= i <= |f.params| && Valid() && warnings == old(warnings)
        invariant DefineParams(old(symbolTable.Value()), f.params) == DefineParams(symbolTable.Value(), f.params[i..])
      {
        assert f.params[i..][1..] == f.params[i + 1..];
        var _ := symbolTable.DefineVariable(f.params[i].name, f.params[i].typ, false, NoSize);
        i := i + 1;
      }
      assert f.params[i..] == [];
      assert State() == old(State()).(table := DefineParams(old(State()).table, f.params));
      r := AnalyzeStatements(f.bodyStatements);
    }

    /** `_analyzeStatement` */
    method AnalyzeStatement(s: Stmt) returns (r: Result<()>)
      requires Valid()
      modifies this, symbolTable
      ensures Valid() && Follows(r, State(), AnalyzeStmt(old(State()), s))
      decreases s
    {
      match s
      case Declaration(_, _, _, _, _, _, _) =>
        r := HandleDeclaration(s);
      case Assignment(target, _, _, e, _, _) =>
        var _ :- symbolTable.Lookup(target);
        r := AnalyzeExpression(e);
      case ReturnStatement(value, _, _) =>
        r := Ok(());
        if value.Some? {
          r := AnalyzeExpression(value.value);
        }
      case IfStatement(_, _, _, _, _) =>
        r := AnalyzeIf(s);
      case ForLoop(_, _, _, _, _, _) =>
        r := AnalyzeFor(s);
      case WhileLoop(c, body, _, _) =>
        var _ :- AnalyzeExpression(c);
        r := AnalyzeStatements(body);
      case DoWhileLoop(body, c, _, _) =>
        var _ :- AnalyzeStatements(body);
        r := AnalyzeExpression(c);
      case Printf(_, es, _, _) =>
        r := AnalyzeExpressions(es);
      case Scanf(_, names, _, _) =>
        r := LookupEach(names);
      case ExpressionStatement(e, _, _) =>
        r := AnalyzeExpression(e);
      case Block(ss, _, _) =>
        r := AnalyzeStatements(ss);
    }

    /** The if branch of `_analyzeStatement`: condition, then-block, else-block. */
    method AnalyzeIf(s: Stmt) returns (r: Result<()>)
      requires Valid() && s.IfStatement?
      modifies this, symbolTable
      ensures Valid() && Follows(r, State(), AnalyzeStmt(old(State()), s))
      decreases s, 0
    {
      var _ :- AnalyzeExpression(s.condition);
      var _ :- AnalyzeStatements(s.thenBlock);
      ghost var s2 := State();
      assert AnalyzeStmt(old(State()), s) == AnalyzeElse(s2, s.elseBlock);
      r := Ok(());
      if s.elseBlock.Else? {
        r := AnalyzeStatements(s.elseBlock.statements);
      }
    }

    /** The for branch of `_analyzeStatement`: init, condition, update, body, each when present. */
    method AnalyzeFor(s: Stmt) returns (r: Result<()>)
      requires Valid() && s.ForLoop?
      modifies this, symbolTable
      ensures Valid() && Follows(r, State(), AnalyzeStmt(old(State()), s))
      decreases s, 0
    {
      ghost var s0 := State();
      if s.init.Some? {
        assert AnalyzeOptStmt(s0, s.init) == AnalyzeStmt(s0, s.init.value);
        var _ :- AnalyzeStatement(s.init.value);
      }
      ghost var s1 := State();
      assert AnalyzeOptStmt(s0, s.init) == Ok(s1);
      if s.loopCondition.Some? {
        var _ :- AnalyzeExpression(s.loopCondition.value);
      }
      ghost var s2 := State();
      assert AnalyzeOptExpr(s1, s.loopCondition) == Ok(s2);
      if s.update.Some? {
        assert AnalyzeOptStmt(s2, s.update) == AnalyzeStmt(s2, s.update.value);
        var _ :- AnalyzeStatement(s.update.value);
      }
      assert AnalyzeOptStmt(s2, s.update) == Ok(State());
      assert AnalyzeStmt(s0, s) == AnalyzeStmts(State(), s.body);
      r := AnalyzeStatements(s.body);
    }

    /** The `forEach` over a statement list. */
    method AnalyzeStatements(ss: seq<Stmt>) returns (r: Result<()>)
      requires Valid()
      modifies this, symbolTable
      ensures Valid() && Follows(r, State(), AnalyzeStmts(old(State()), ss))
      decreases ss
    {
      var i := 0;
      while i < |ss|
        invariant 0 <= i <= |ss| && Valid()
        invariant AnalyzeStmts(old(State()), ss) == AnalyzeStmts(State(), ss[i..])
      {
        assert ss[i..][1..] == ss[i + 1..];
        var _ :- AnalyzeStatement(ss[i]);
        i := i + 1;
      }
      r := Ok(());
    }

    /** The scanf targets: each must be defined. */
    method LookupEach(names: seq<string>) returns (r: Result<()>)
      requires Valid()
      ensures Follows(r, State(), RequireAll(State(), names))
    {
      var i := 0;
      while i < |names|
        invariant 0 <= i <= |names|
        invariant RequireAll(State(), names) == RequireAll(State(), names[i..])
      {
        assert names[i..][1..] == names[i + 1..];
        var _ :- symbolTable.Lookup(names[i]);
        i := i + 1;
      }
      r := Ok(());
    }

    /** `_analyzeExpression`: unknown functions warn, undefined variables throw. */
    method AnalyzeExpression(e: Expr) returns (r: Result<()>)
      requires Valid()
      modifies this
      ensures Valid() && Follows(r, State(), AnalyzeExpr(old(State()), e))
      decreases e
    {
      match e
      case Identifier(name, _, _, _) =>
        var _ :- symbolTable.Lookup(name);
        r := Ok(());
      case Literal(_, _, _, _) =>
        r := Ok(());
      case BinaryExpression(left, _, right, _, _) =>
        var _ :- AnalyzeExpression(left);
        r := AnalyzeExpression(right);
      case UnaryExpression(_, operand, _, _) =>
        r := AnalyzeExpression(operand);
      case FunctionCall(name, args, _, _) =>
        var known := symbolTable.LookupFunction(name);
        if known.Err? {
          warnings := warnings + [known.msg];
        }
        r := AnalyzeExpressions(args);
    }

    /** The `forEach` over argument and printf expressions. */
    method AnalyzeExpressions(es: seq<Expr>) returns (r: Result<()>)
      requires Valid()
      modifies this
      ensures Valid() && Follows(r, State(), AnalyzeExprs(old(State()), es))
      decreases es
    {
      var i := 0;
      while i < |es|
        invariant 0 <= i <= |es| && Valid()
        invariant AnalyzeExprs(old(State()), es) == AnalyzeExprs(State(), es[i..])
      {
        assert es[i..][1..] == es[i + 1..];
        var _ :- AnalyzeExpression(es[i]);
        i := i + 1;
      }
      r := Ok(());
    }
  }
}
