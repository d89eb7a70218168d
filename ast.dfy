// Syntax tree of the C subset: one datatype for expressions, one for
// statements, plus function declarations and the program root.

module Ast {
  import opened Util

  /** The `literalType` tag of a literal node: 'number', 'char' or 'string'. */
  datatype LiteralType = NumberLit | CharLit | StringLit

  /**
   * The `arraySize` of a declaration: absent (no brackets, or `[]`), the
   * value `parseInt` gave for the NUMBER lexeme, or NaN when that lexeme
   * has no digits after its `0x` prefix.
   */
  datatype ArraySize = NoSize | Size(n: int) | SizeNaN

  datatype Expr =
    | BinaryExpression(left: Expr, operator: string, right: Expr, line: int, column: int)
    | UnaryExpression(operator: string, operand: Expr, line: int, column: int)
    | Identifier(name: string, arrayIndex: Option<Expr>, line: int, column: int)
    /** `value` is the raw lexeme of the literal token. */
    | Literal(value: string, literalType: LiteralType, line: int, column: int)
    | FunctionCall(name: string, args: seq<Expr>, line: int, column: int)

  datatype Stmt =
    | Declaration(dataType: string, identifier: string, isArray: bool, arraySize: ArraySize,
                  initialValue: Option<Expr>, line: int, column: int)
    | Assignment(identifier: string, arrayIndex: Option<Expr>, operator: string, expression: Expr,
                 line: int, column: int)
    | IfStatement(condition: Expr, thenBlock: seq<Stmt>, elseBlock: Else, line: int, column: int)
    | ForLoop(init: Option<Stmt>, loopCondition: Option<Expr>, update: Option<Stmt>, body: seq<Stmt>,
              line: int, column: int)
    | WhileLoop(condition: Expr, body: seq<Stmt>, line: int, column: int)
    | DoWhileLoop(body: seq<Stmt>, condition: Expr, line: int, column: int)
    | Printf(formatString: string, expressions: seq<Expr>, line: int, column: int)
    | Scanf(formatString: string, identifiers: seq<string>, line: int, column: int)
    | ReturnStatement(returned: Option<Expr>, line: int, column: int)
    | ExpressionStatement(expression: Expr, line: int, column: int)
    | Block(statements: seq<Stmt>, line: int, column: int)

  /** The `elseBlock` of an if statement: null when there is no `else`, otherwise a statement list. */
  datatype Else = NoElse | Else(statements: seq<Stmt>)

  /** A parameter is a `{type, name}` pair. */
  datatype Param = Param(typ: string, name: string)

  /** The function body is kept as the flat statement list of its block. */
  datatype FunctionDecl =
    FunctionDecl(returnType: string, name: string, params: seq<Param>, bodyStatements: seq<Stmt>,
                 line: int, column: int)

  datatype Program = Program(functions: seq<FunctionDecl>, declarations: seq<Stmt>, statements: seq<Stmt>)

  /** A freshly constructed program node: all three lists empty. */
  function NewProgram(): (p: Program)
    ensures |p.functions| == 0 && |p.declarations| == 0 && |p.statements| == 0
  {
    Program([], [], [])
  }

  /** The `type` tag every expression node carries. */
  function ExprTag(e: Expr): string
  {
    match e
    case BinaryExpression(_, _, _, _, _) => "BinaryExpression"
    case UnaryExpression(_, _, _, _) => "UnaryExpression"
    case Identifier(_, _, _, _) => "Identifier"
    case Literal(_, _, _, _) => "Literal"
    case FunctionCall(_, _, _, _) => "FunctionCall"
  }

  /** The `type` tag every statement node carries. */
  function StmtTag(s: Stmt): string
  {
    match s
    case Declaration(_, _, _, _, _, _, _) => "Declaration"
    case Assignment(_, _, _, _, _, _) => "Assignment"
    case IfStatement(_, _, _, _, _) => "IfStatement"
    case ForLoop(_, _, _, _, _, _) => "ForLoop"
    case WhileLoop(_, _, _, _) => "WhileLoop"
    case DoWhileLoop(_, _, _, _) => "DoWhileLoop"
    case Printf(_, _, _, _) => "Printf"
    case Scanf(_, _, _, _) => "Scanf"
    case ReturnStatement(_, _, _) => "ReturnStatement"
    case ExpressionStatement(_, _, _) => "ExpressionStatement"
    case Block(_, _, _) => "Block"
  }

  /** The tag names the variant: two expressions share a tag exactly when they are the same kind of node. */
  lemma ExprTagsNameVariants(a: Expr, b: Expr)
    ensures ExprTag(a) == ExprTag(b) <==> SameExprKind(a, b)
  {
  }

  /** Likewise for statements; and no statement tag is an expression tag. */
  lemma StmtTagsNameVariants(s: Stmt, t: Stmt, a: Expr)
    ensures StmtTag(s) == StmtTag(t) <==> SameStmtKind(s, t)
    ensures ExprTag(a) != StmtTag(s)
  {
  }

  predicate SameExprKind(a: Expr, b: Expr)
  {
    (a.BinaryExpression? && b.BinaryExpression?) || (a.UnaryExpression? && b.UnaryExpression?) ||
    (a.Identifier? && b.Identifier?) || (a.Literal? && b.Literal?) || (a.FunctionCall? && b.FunctionCall?)
  }

  predicate SameStmtKind(s: Stmt, t: Stmt)
  {
    (s.Declaration? && t.Declaration?) || (s.Assignment? && t.Assignment?) ||
    (s.IfStatement? && t.IfStatement?) || (s.ForLoop? && t.ForLoop?) ||
    (s.WhileLoop? && t.WhileLoop?) || (s.DoWhileLoop? && t.DoWhileLoop?) ||
    (s.Printf? && t.Printf?) || (s.Scanf? && t.Scanf?) ||
    (s.ReturnStatement? && t.ReturnStatement?) || (s.ExpressionStatement? && t.ExpressionStatement?) ||
    (s.Block? && t.Block?)
  }
}
