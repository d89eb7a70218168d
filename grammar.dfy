/*
 * The grammar the recursive-descent parser recognises
 * (backend/src/compiler/parser/parser.js), as functions over a token list.
 *
 * Every function takes the index `p` of the current token and returns the
 * node it built together with the index of the first token it did not
 * consume, or the message the parser throws. The parser needs the token
 * list to end with an EOF token (which the lexer guarantees): `advance`
 * never moves past the last token, and every rule that succeeds consumes at
 * least one token, which is what makes the recursion terminate.
 */
module Grammar {
  import opened Util
  import opened Lexer
  import opened Ast

  datatype Parsed<T> = Parsed(node: T, next: nat)

  predicate EndsWithEof(toks: seq<Token>)
  {
    |toks| > 0 && toks[|toks| - 1].kind == EOF
  }

  /** A successful parse from `p` consumed at least one token and stopped inside the list. */
  predicate Advanced<T>(toks: seq<Token>, p: nat, r: Result<Parsed<T>>)
  {
    r.Ok? ==> p < r.value.next < |toks|
  }

  /** A successful parse from `p` stopped at `p` or later, inside the list. */
  predicate Stayed<T>(toks: seq<Token>, p: nat, r: Result<Parsed<T>>)
  {
    r.Ok? ==> p <= r.value.next < |toks|
  }

  /** Every message the parser throws mentions "expected" once lower-cased. */
  predicate SyntaxFailure<T>(r: Result<Parsed<T>>)
  {
    r.Err? ==> Mentions(r.msg, "expected")
  }

  // ---------------------------------------------------------------------
  // Cursor
  // ---------------------------------------------------------------------

  /** `advance`: moves to the next token unless already on the last one. */
  function Adv(toks: seq<Token>, p: nat): (q: nat)
    requires p < |toks|
    ensures q < |toks|
    ensures p <= q <= p + 1
    ensures q == p <==> p == |toks| - 1
    ensures EndsWithEof(toks) && toks[p].kind != EOF ==> q == p + 1
  {
    if p < |toks| - 1 then p + 1 else p
  }

  /** `peek(offset)`: the token `offset` places ahead, or the last token when that is past the end. */
  function PeekTok(toks: seq<Token>, p: nat, offset: nat): (t: Token)
    requires 0 < |toks|
    ensures p + offset < |toks| ==> t == toks[p + offset]
    ensures p + offset >= |toks| ==> t == toks[|toks| - 1]
  {
    if p + offset >= |toks| then toks[|toks| - 1] else toks[p + offset]
  }

  function PositionText(t: Token): string
  {
    IntToString(t.line) + ":" + IntToString(t.column)
  }

  /** A message of the form `<what> at line L:C`. */
  function ErrorAt(what: string, t: Token): (m: string)
    ensures StartsWith(what, "Expected") || StartsWith(what, "Unexpected") ==> Mentions(m, "expected")
  {
    var m := what + (" at line " + PositionText(t));
    assert StartsWith(what, "Expected") || StartsWith(what, "Unexpected") ==> Mentions(m, "expected") by {
      if StartsWith(what, "Expected") || StartsWith(what, "Unexpected") {
        MentionsExpected(what);
        MentionsConcat(what, " at line " + PositionText(t), "expected");
      }
    }
    m
  }

  /** `Expected <what> at line L:C`. */
  function ExpectedAt(what: string, t: Token): (m: string)
    ensures Mentions(m, "expected")
  {
    var full := "Expected " + what;
    assert StartsWith(full, "Expected") by {
      assert full[..8] == "Expected";
    }
    ErrorAt(full, t)
  }

  function UnexpectedToken(t: Token): (m: string)
    ensures Mentions(m, "expected")
  {
    var what := "Unexpected token " + TypeName(t.kind);
    assert StartsWith(what, "Unexpected");
    ErrorAt(what, t)
  }

  function ExpectMessage(t: Token, k: TokenType, msg: string): (m: string)
    ensures Mentions(m, "expected")
  {
    var tail := ". Expected " + TypeName(k) + ", got " + TypeName(t.kind) + " ('" + t.value + "')";
    assert StartsWith(tail, ". Expected");
    MentionsExpected(tail);
    MentionsConcat(msg + " at line " + PositionText(t), tail, "expected");
    msg + " at line " + PositionText(t) + tail
  }

  /** `expect(k, msg)`: consumes the current token exactly when it has type `k`. */
  function Expect(toks: seq<Token>, p: nat, k: TokenType, msg: string): (r: Result<Parsed<Token>>)
    requires EndsWithEof(toks) && p < |toks|
    ensures r.Ok? <==> toks[p].kind == k
    ensures r.Ok? ==> r.value.node == toks[p] && r.value.next == Adv(toks, p)
    ensures r.Err? ==> r.msg == ExpectMessage(toks[p], k, msg)
    ensures k != EOF ==> Advanced(toks, p, r)
    ensures SyntaxFailure(r)
  {
    if toks[p].kind != k then Err(ExpectMessage(toks[p], k, msg))
    else Ok(Parsed(toks[p], Adv(toks, p)))
  }

  // ---------------------------------------------------------------------
  // Program and functions
  // ---------------------------------------------------------------------

  /** `parse`: the whole token list. */
  function ParseProgram(toks: seq<Token>): (r: Result<Program>)
    requires EndsWithEof(toks)
    ensures r.Err? ==> Mentions(r.msg, "expected")
  {
    ParseTopLevel(toks, 0, NewProgram())
  }

  /**
   * The top-level loop: a type keyword followed by `IDENT (` starts a
   * function, any other type keyword a global declaration, anything else a
   * statement; the item is appended to the matching list.
   */
  function ParseTopLevel(toks: seq<Token>, p: nat, acc: Program): (r: Result<Program>)
    requires EndsWithEof(toks) && p < |toks|
    ensures r.Err? ==> Mentions(r.msg, "expected")
    decreases |toks| - p
  {
    var t := toks[p];
    if t.kind == EOF then Ok(acc)
    else if t.kind in {INT, CHAR, VOID} then
      if PeekTok(toks, p, 1).kind == IDENTIFIER && PeekTok(toks, p, 2).kind == LPAREN then
        var f :- ParseFunctionDeclaration(toks, p);
        ParseTopLevel(toks, f.next, acc.(functions := acc.functions + [f.node]))
      else
        var d :- ParseDeclaration(toks, p);
        ParseTopLevel(toks, d.next, acc.(declarations := acc.declarations + [d.node]))
    else
      var s :- ParseStatement(toks, p);
      ParseTopLevel(toks, s.next, acc.(statements := acc.statements + [s.node]))
  }

  /** `<type> <identifier> ( <params> ) <block>`; the body is the block's statement list. */
  function ParseFunctionDeclaration(toks: seq<Token>, p: nat): (r: Result<Parsed<FunctionDecl>>)
    requires EndsWithEof(toks) && p < |toks| && toks[p].kind in {INT, CHAR, VOID}
    ensures Advanced(toks, p, r) && SyntaxFailure(r)
    ensures r.Ok? ==> r.value.node.returnType == toks[p].value && r.value.node.name == toks[p + 1].value
  {
    var t := toks[p];
    var name :- Expect(toks, Adv(toks, p), IDENTIFIER, "Expected function name");
    var lp :- Expect(toks, name.next, LPAREN, "Expected ( after function name");
    var params :- if toks[lp.next].kind == RPAREN then Ok(Parsed([], lp.next)) else ParseParamList(toks, lp.next);
    var rp :- Expect(toks, params.next, RPAREN, "Expected ) after parameters");
    var body :- ParseBlock(toks, rp.next);
    Ok(Parsed(FunctionDecl(t.value, name.node.value, params.node, body.node.statements, t.line, t.column), body.next))
  }

  /** A list result with `xs` put in front of the parsed list. */
  function PrependAll<T>(xs: seq<T>, r: Result<Parsed<seq<T>>>): Result<Parsed<seq<T>>>
  {
    match r
    case Ok(pr) => Ok(Parsed(xs + pr.node, pr.next))
    case Err(m) => Err(m)
  }

  /**
   * The parameter list: `TYPE IDENT (, TYPE IDENT)*`, every type being `int`
   * or `char`. The i-th parameter is made of the tokens at `p + 3i` and
   * `p + 3i + 1`, separated by commas, and the list stops at the first
   * parameter not followed by a comma.
   */
  function ParseParamList(toks: seq<Token>, p: nat): (r: Result<Parsed<seq<Param>>>)
    requires EndsWithEof(toks) && p < |toks|
    ensures Advanced(toks, p, r) && SyntaxFailure(r)
    decreases |toks| - p
  {
    var t := toks[p];
    if t.kind !in {INT, CHAR} then Err(ExpectedAt("parameter type", t))
    else
      var name :- Expect(toks, Adv(toks, p), IDENTIFIER, "Expected parameter name");
      var param := Param(t.value, name.node.value);
      if toks[name.next].kind != COMMA then Ok(Parsed([param], name.next))
      else
        var rest :- ParseParamList(toks, Adv(toks, name.next));
        Ok(Parsed([param] + rest.node, rest.next))
  }

  // ---------------------------------------------------------------------
  // Declarations
  // ---------------------------------------------------------------------

  /** The value `parseInt` gives for an array-size lexeme. */
  function ArraySizeOf(lexeme: string): ArraySize
  {
    match ParseInt(lexeme)
    case None => SizeNaN
    case Some(n) => Size(n)
  }

  /** `<type> <identifier> ['[' [<number>] ']'] ['=' <expression>] ';'` */
  function ParseDeclaration(toks: seq<Token>, p: nat): (r: Result<Parsed<Stmt>>)
    requires EndsWithEof(toks) && p < |toks| && toks[p].kind in {INT, CHAR, VOID}
    ensures Advanced(toks, p, r) && SyntaxFailure(r)
    ensures r.Ok? ==> r.value.node.Declaration?
  {
    var t := toks[p];
    var id :- Expect(toks, Adv(toks, p), IDENTIFIER, "Expected identifier after type");
    var arr :- ParseArraySuffix(toks, id.next);
    var init :- ParseInitializer(toks, arr.next);
    var semi :- Expect(toks, init.next, SEMICOLON, "Expected ; after declaration");
    Ok(Parsed(Declaration(t.value, id.node.value, arr.node.0, arr.node.1, init.node, t.line, t.column), semi.next))
  }

  /** The optional `[ [NUMBER] ]` of a declaration: whether it is an array, and its size. */
  function ParseArraySuffix(toks: seq<Token>, p: nat): (r: Result<Parsed<(bool, ArraySize)>>)
    requires EndsWithEof(toks) && p < |toks|
    ensures Stayed(toks, p, r) && SyntaxFailure(r)
    ensures toks[p].kind != LBRACKET ==> r == Ok(Parsed((false, NoSize), p))
    ensures r.Ok? && toks[p].kind == LBRACKET ==>
      r.value.node.0 && p + 1 < r.value.next &&
      (toks[p + 1].kind == NUMBER ==> r.value.node.1 == ArraySizeOf(toks[p + 1].value)) &&
      (toks[p + 1].kind != NUMBER ==> r.value.node.1 == NoSize)
  {
    if toks[p].kind != LBRACKET then Ok(Parsed((false, NoSize), p))
    else
      var q := Adv(toks, p);
      var size := if toks[q].kind == NUMBER then ArraySizeOf(toks[q].value) else NoSize;
      var q' := if toks[q].kind == NUMBER then Adv(toks, q) else q;
      var rb :- Expect(toks, q', RBRACKET, "Expected ] after array size");
      Ok(Parsed((true, size), rb.next))
  }

  /** The optional `= <expression>` of a declaration. */
  function ParseInitializer(toks: seq<Token>, p: nat): (r: Result<Parsed<Option<Expr>>>)
    requires EndsWithEof(toks) && p < |toks|
    ensures Stayed(toks, p, r) && SyntaxFailure(r)
    ensures r.Ok? ==> (r.value.node.Some? <==> toks[p].kind == ASSIGN)
  {
    if toks[p].kind != ASSIGN then Ok(Parsed(None, p))
    else
      var e :- ParseExpression(toks, Adv(toks, p));
      Ok(Parsed(Some(e.node), e.next))
  }

  // ---------------------------------------------------------------------
  // Statements
  // ---------------------------------------------------------------------

  /** `parseStatement`: dispatch on the current token. */
  function ParseStatement(toks: seq<Token>, p: nat): (r: Result<Parsed<Stmt>>)
    requires EndsWithEof(toks) && p < |toks|
    ensures Advanced(toks, p, r) && SyntaxFailure(r)
    decreases |toks| - p, 35
  {
    var t := toks[p];
    if t.kind == RETURN then ParseReturn(toks, p)
    else if t.kind == LBRACE then ParseBlock(toks, p)
    else if t.kind == IF then ParseIf(toks, p)
    else if t.kind == FOR then ParseFor(toks, p)
    else if t.kind == WHILE then ParseWhile(toks, p)
    else if t.kind == DO then ParseDoWhile(toks, p)
    else if t.kind == PRINTF then ParsePrintf(toks, p)
    else if t.kind == SCANF then ParseScanf(toks, p)
    else if t.kind in {INT, CHAR} then ParseDeclaration(toks, p)
    else if t.kind == IDENTIFIER then
      if PeekTok(toks, p, 1).kind == LPAREN then
        var call :- ParseFunctionCall(toks, p);
        var semi :- Expect(toks, call.next, SEMICOLON, "Expected ; after function call");
        Ok(Parsed(ExpressionStatement(call.node, t.line, t.column), semi.next))
      else ParseAssignmentOrExpression(toks, p)
    else Err(UnexpectedToken(t))
  }

  /** `return [<expression>] ;` */
  function ParseReturn(toks: seq<Token>, p: nat): (r: Result<Parsed<Stmt>>)
    requires EndsWithEof(toks) && p < |toks|
    ensures Advanced(toks, p, r) && SyntaxFailure(r)
  {
    var t := toks[p];
    var kw :- Expect(toks, p, RETURN, "Expected return");
    var e :- ParseOptionalExpression(toks, kw.next, SEMICOLON);
    var semi :- Expect(toks, e.next, SEMICOLON, "Expected ; after return");
    Ok(Parsed(ReturnStatement(e.node, t.line, t.column), semi.next))
  }

  /** No expression when the current token is `stop`, otherwise one expression. */
  function ParseOptionalExpression(toks: seq<Token>, p: nat, stop: TokenType): (r: Result<Parsed<Option<Expr>>>)
    requires EndsWithEof(toks) && p < |toks|
    ensures Stayed(toks, p, r) && SyntaxFailure(r)
    ensures r.Ok? ==> (r.value.node.None? <==> toks[p].kind == stop)
  {
    if toks[p].kind == stop then Ok(Parsed(None, p))
    else
      var e :- ParseExpression(toks, p);
      Ok(Parsed(Some(e.node), e.next))
  }

  /** `{ (<declaration> | <statement>)* }` */
  function ParseBlock(toks: seq<Token>, p: nat): (r: Result<Parsed<Stmt>>)
    requires EndsWithEof(toks) && p < |toks|
    ensures Advanced(toks, p, r) && SyntaxFailure(r)
    ensures r.Ok? ==> r.value.node.Block? && toks[p].kind == LBRACE && toks[r.value.next - 1].kind == RBRACE
    decreases |toks| - p, 30
  {
    var t := toks[p];
    var lb :- Expect(toks, p, LBRACE, "Expected {");
    ParseBlockRest(toks, lb.next, t)
  }

  /** What follows the `{` of a block: its items and the closing `}`. */
  function ParseBlockRest(toks: seq<Token>, p: nat, t: Token): (r: Result<Parsed<Stmt>>)
    requires EndsWithEof(toks) && p < |toks|
    ensures Advanced(toks, p, r) && SyntaxFailure(r)
    ensures r.Ok? ==> r.value.node.Block? && toks[r.value.next - 1].kind == RBRACE
    decreases |toks| - p, 45
  {
    var items :- ParseBlockItems(toks, p);
    var rb :- Expect(toks, items.next, RBRACE, "Expected }");
    Ok(Parsed(Block(items.node, t.line, t.column), rb.next))
  }

  /** The items of a block, up to (not including) `}` or the end of input. */
  function ParseBlockItems(toks: seq<Token>, p: nat): (r: Result<Parsed<seq<Stmt>>>)
    requires EndsWithEof(toks) && p < |toks|
    ensures Stayed(toks, p, r) && SyntaxFailure(r)
    ensures r.Ok? ==> toks[r.value.next].kind in {RBRACE, EOF}
    decreases |toks| - p, 40
  {
    var k := toks[p].kind;
    if k == RBRACE || k == EOF then Ok(Parsed([], p))
    else
      var s :- if k in {INT, CHAR} then ParseDeclaration(toks, p) else ParseStatement(toks, p);
      var rest :- ParseBlockItems(toks, s.next);
      Ok(Parsed([s.node] + rest.node, rest.next))
  }

  /** The body of an `if`, `else` or loop: a block's statements, or a single statement. */
  function ParseBody(toks: seq<Token>, p: nat): (r: Result<Parsed<seq<Stmt>>>)
    requires EndsWithEof(toks) && p < |toks|
    ensures Advanced(toks, p, r) && SyntaxFailure(r)
    ensures r.Ok? && toks[p].kind != LBRACE ==> |r.value.node| == 1
    decreases |toks| - p, 36
  {
    if toks[p].kind == LBRACE then
      var b :- ParseBlock(toks, p);
      Ok(Parsed(b.node.statements, b.next))
    else
      var s :- ParseStatement(toks, p);
      Ok(Parsed([s.node], s.next))
  }

  /** `if ( <expression> ) <body> [else <body>]`; no `else` leaves `elseBlock` null. */
  function ParseIf(toks: seq<Token>, p: nat): (r: Result<Parsed<Stmt>>)
    requires EndsWithEof(toks) && p < |toks|
    ensures Advanced(toks, p, r) && SyntaxFailure(r)
    decreases |toks| - p, 30
  {
    var t := toks[p];
    var kw :- Expect(toks, p, IF, "Expected if");
    var lp :- Expect(toks, kw.next, LPAREN, "Expected ( after if");
    var cond :- ParseExpression(toks, lp.next);
    var rp :- Expect(toks, cond.next, RPAREN, "Expected ) after condition");
    var thenPart :- ParseBody(toks, rp.next);
    var elsePart :- ParseElse(toks, thenPart.next);
    Ok(Parsed(IfStatement(cond.node, thenPart.node, elsePart.node, t.line, t.column), elsePart.next))
  }

  /** The optional `else <body>` of an `if`: absent exactly when the next token is not `else`. */
  function ParseElse(toks: seq<Token>, p: nat): (r: Result<Parsed<Else>>)
    requires EndsWithEof(toks) && p < |toks|
    ensures Stayed(toks, p, r) && SyntaxFailure(r)
    ensures toks[p].kind != ELSE ==> r == Ok(Parsed(NoElse, p))
    ensures r.Ok? && toks[p].kind == ELSE ==> r.value.node.Else?
    decreases |toks| - p, 0
  {
    if toks[p].kind != ELSE then Ok(Parsed(NoElse, p))
    else
      var body :- ParseBody(toks, Adv(toks, p));
      Ok(Parsed(Else(body.node), body.next))
  }

  /** `for ( <init> ; [<expression>] ; [<assignment>] ) <body>` */
  function ParseFor(toks: seq<Token>, p: nat): (r: Result<Parsed<Stmt>>)
    requires EndsWithEof(toks) && p < |toks|
    ensures Advanced(toks, p, r) && SyntaxFailure(r)
    decreases |toks| - p, 30
  {
    var t := toks[p];
    var kw :- Expect(toks, p, FOR, "Expected for");
    var lp :- Expect(toks, kw.next, LPAREN, "Expected ( after for");
    var init :- ParseForInit(toks, lp.next);
    var cond :- ParseOptionalExpression(toks, init.next, SEMICOLON);
    var semi :- Expect(toks, cond.next, SEMICOLON, "Expected ; after for condition");
    var update :- ParseForUpdate(toks, semi.next);
    var rp :- Expect(toks, update.next, RPAREN, "Expected ) after for clauses");
    var body :- ParseBody(toks, rp.next);
    Ok(Parsed(ForLoop(init.node, cond.node, update.node, body.node, t.line, t.column), body.next))
  }

  /** The init clause of a `for`, with its `;`: empty, a declaration, or an assignment. */
  function ParseForInit(toks: seq<Token>, p: nat): (r: Result<Parsed<Option<Stmt>>>)
    requires EndsWithEof(toks) && p < |toks|
    ensures Advanced(toks, p, r) && SyntaxFailure(r)
    ensures r.Ok? ==> (r.value.node.None? <==> toks[p].kind == SEMICOLON)
  {
    if toks[p].kind == SEMICOLON then Ok(Parsed(None, Adv(toks, p)))
    else if toks[p].kind in {INT, CHAR} then
      var d :- ParseDeclaration(toks, p);
      Ok(Parsed(Some(d.node), d.next))
    else
      var a :- ParseAssignment(toks, p);
      var semi :- Expect(toks, a.next, SEMICOLON, "Expected ; after for init");
      Ok(Parsed(Some(a.node), semi.next))
  }

  /** The update clause of a `for`: empty when `)` follows, otherwise an assignment. */
  function ParseForUpdate(toks: seq<Token>, p: nat): (r: Result<Parsed<Option<Stmt>>>)
    requires EndsWithEof(toks) && p < |toks|
    ensures Stayed(toks, p, r) && SyntaxFailure(r)
    ensures r.Ok? ==> (r.value.node.None? <==> toks[p].kind == RPAREN)
  {
    if toks[p].kind == RPAREN then Ok(Parsed(None, p))
    else
      var a :- ParseAssignment(toks, p);
      Ok(Parsed(Some(a.node), a.next))
  }

  /** `while ( <expression> ) <body>` */
  function ParseWhile(toks: seq<Token>, p: nat): (r: Result<Parsed<Stmt>>)
    requires EndsWithEof(toks) && p < |toks|
    ensures Advanced(toks, p, r) && SyntaxFailure(r)
    decreases |toks| - p, 30
  {
    var t := toks[p];
    var kw :- Expect(toks, p, WHILE, "Expected while");
    var lp :- Expect(toks, kw.next, LPAREN, "Expected ( after while");
    var cond :- ParseExpression(toks, lp.next);
    var rp :- Expect(toks, cond.next, RPAREN, "Expected ) after condition");
    var body :- ParseBody(toks, rp.next);
    Ok(Parsed(WhileLoop(cond.node, body.node, t.line, t.column), body.next))
  }

  /** `do <body> while ( <expression> ) ;` */
  function ParseDoWhile(toks: seq<Token>, p: nat): (r: Result<Parsed<Stmt>>)
    requires EndsWithEof(toks) && p < |toks|
    ensures Advanced(toks, p, r) && SyntaxFailure(r)
    decreases |toks| - p, 30
  {
    var t := toks[p];
    var kw :- Expect(toks, p, DO, "Expected do");
    var body :- ParseBody(toks, kw.next);
    var wh :- Expect(toks, body.next, WHILE, "Expected while after do body");
    var lp :- Expect(toks, wh.next, LPAREN, "Expected ( after while");
    var cond :- ParseExpression(toks, lp.next);
    var rp :- Expect(toks, cond.next, RPAREN, "Expected ) after condition");
    var semi :- Expect(toks, rp.next, SEMICOLON, "Expected ; after do-while");
    Ok(Parsed(DoWhileLoop(body.node, cond.node, t.line, t.column), semi.next))
  }

  /** `printf ( STRING (, <expression>)* ) ;` */
  function ParsePrintf(toks: seq<Token>, p: nat): (r: Result<Parsed<Stmt>>)
    requires EndsWithEof(toks) && p < |toks|
    ensures Advanced(toks, p, r) && SyntaxFailure(r)
  {
    var t := toks[p];
    var kw :- Expect(toks, p, PRINTF, "Expected printf");
    var lp :- Expect(toks, kw.next, LPAREN, "Expected ( after printf");
    var fmt :- Expect(toks, lp.next, STRING_LITERAL, "Expected format string");
    var args :- ParsePrintfArgs(toks, fmt.next);
    var rp :- Expect(toks, args.next, RPAREN, "Expected ) after printf arguments");
    var semi :- Expect(toks, rp.next, SEMICOLON, "Expected ; after printf");
    Ok(Parsed(Printf(fmt.node.value, args.node, t.line, t.column), semi.next))
  }

  /** `(, <expression>)*` */
  function ParsePrintfArgs(toks: seq<Token>, p: nat): (r: Result<Parsed<seq<Expr>>>)
    requires EndsWithEof(toks) && p < |toks|
    ensures Stayed(toks, p, r) && SyntaxFailure(r)
    ensures r.Ok? ==> toks[r.value.next].kind != COMMA
    decreases |toks| - p
  {
    if toks[p].kind != COMMA then Ok(Parsed([], p))
    else
      var e :- ParseExpression(toks, Adv(toks, p));
      var rest :- ParsePrintfArgs(toks, e.next);
      Ok(Parsed([e.node] + rest.node, rest.next))
  }

  /** `scanf ( STRING (, & IDENT)* ) ;` */
  function ParseScanf(toks: seq<Token>, p: nat): (r: Result<Parsed<Stmt>>)
    requires EndsWithEof(toks) && p < |toks|
    ensures Advanced(toks, p, r) && SyntaxFailure(r)
  {
    var t := toks[p];
    var kw :- Expect(toks, p, SCANF, "Expected scanf");
    var lp :- Expect(toks, kw.next, LPAREN, "Expected ( after scanf");
    var fmt :- Expect(toks, lp.next, STRING_LITERAL, "Expected format string");
    var ids :- ParseScanfArgs(toks, fmt.next);
    var rp :- Expect(toks, ids.next, RPAREN, "Expected ) after scanf arguments");
    var semi :- Expect(toks, rp.next, SEMICOLON, "Expected ; after scanf");
    Ok(Parsed(Scanf(fmt.node.value, ids.node, t.line, t.column), semi.next))
  }

  /**
   * `(, & IDENT)*`: the i-th target is the identifier at `p + 3i + 2`, right
   * after a comma and an `&`; a comma not followed by `&` is an error.
   */
  function ParseScanfArgs(toks: seq<Token>, p: nat): (r: Result<Parsed<seq<string>>>)
    requires EndsWithEof(toks) && p < |toks|
    ensures Stayed(toks, p, r) && SyntaxFailure(r)
    decreases |toks| - p
  {
    if toks[p].kind != COMMA then Ok(Parsed([], p))
    else
      var amp :- Expect(toks, Adv(toks, p), BIT_AND, "Expected & before variable in scanf");
      var id :- Expect(toks, amp.next, IDENTIFIER, "Expected identifier");
      var rest :- ParseScanfArgs(toks, id.next);
      Ok(Parsed([id.node.value] + rest.node, rest.next))
  }

  /** An optional `[ <expression> ]` after an identifier. */
  function ParseOptionalIndex(toks: seq<Token>, p: nat): (r: Result<Parsed<Option<Expr>>>)
    requires EndsWithEof(toks) && p < |toks|
    ensures Stayed(toks, p, r) && SyntaxFailure(r)
    ensures toks[p].kind != LBRACKET ==> r == Ok(Parsed(None, p))
    ensures r.Ok? && toks[p].kind == LBRACKET ==> r.value.node.Some? && p < r.value.next
    decreases |toks| - p, 0
  {
    if toks[p].kind != LBRACKET then Ok(Parsed(None, p))
    else
      var e :- ParseExpression(toks, Adv(toks, p));
      var rb :- Expect(toks, e.next, RBRACKET, "Expected ] after array index");
      Ok(Parsed(Some(e.node), rb.next))
  }

  /**
   * A statement that starts with an identifier not followed by `(`:
   * `x[i]? (= | += | -=) <expression> ;` or `x[i]? (++ | --) ;`, the latter
   * becoming an expression statement around a unary node.
   */
  function ParseAssignmentOrExpression(toks: seq<Token>, p: nat): (r: Result<Parsed<Stmt>>)
    requires EndsWithEof(toks) && p < |toks|
    ensures Advanced(toks, p, r) && SyntaxFailure(r)
  {
    var t := toks[p];
    var idx :- ParseOptionalIndex(toks, Adv(toks, p));
    var op := toks[idx.next];
    if op.kind in {ASSIGN, PLUS_ASSIGN, MINUS_ASSIGN} then
      var e :- ParseExpression(toks, Adv(toks, idx.next));
      var semi :- Expect(toks, e.next, SEMICOLON, "Expected ; after assignment");
      Ok(Parsed(Assignment(t.value, idx.node, op.value, e.node, t.line, t.column), semi.next))
    else if op.kind in {INCREMENT, DECREMENT} then
      var semi :- Expect(toks, Adv(toks, idx.next), SEMICOLON, "Expected ; after expression");
      var target := Identifier(t.value, idx.node, t.line, t.column);
      Ok(Parsed(ExpressionStatement(UnaryExpression(op.value, target, t.line, t.column), t.line, t.column), semi.next))
    else
      Err(ExpectedAt("assignment or expression", t))
  }

  /**
   * The assignment of a `for` clause (no `;`): `x[i]? op <expression>`, or
   * `x[i]? ++` / `x[i]? --`, whose expression is the unary node on the target.
   */
  function ParseAssignment(toks: seq<Token>, p: nat): (r: Result<Parsed<Stmt>>)
    requires EndsWithEof(toks) && p < |toks|
    ensures Advanced(toks, p, r) && SyntaxFailure(r)
    ensures r.Ok? ==> r.value.node.Assignment?
  {
    var t := toks[p];
    var idx :- ParseOptionalIndex(toks, Adv(toks, p));
    var op := toks[idx.next];
    if op.kind !in {ASSIGN, PLUS_ASSIGN, MINUS_ASSIGN, INCREMENT, DECREMENT} then
      Err(ExpectedAt("assignment operator", t))
    else if op.value == "++" || op.value == "--" then
      var target := Identifier(t.value, idx.node, t.line, t.column);
      Ok(Parsed(Assignment(t.value, idx.node, op.value, UnaryExpression(op.value, target, t.line, t.column),
                           t.line, t.column), Adv(toks, idx.next)))
    else
      var e :- ParseExpression(toks, Adv(toks, idx.next));
      Ok(Parsed(Assignment(t.value, idx.node, op.value, e.node, t.line, t.column), e.next))
  }

  // ---------------------------------------------------------------------
  // Expressions
  // ---------------------------------------------------------------------

  /**
   * The precedence level of a binary operator token, loosest first:
   * 1 `||`, 2 `&&`, 3 `|`, 4 `^`, 5 `&`, 6 `== !=`, 7 `< > <= >=`,
   * 8 `<< >>`, 9 `+ -`, 10 `* / %`; 0 for every other token.
   */
  function OpLevel(k: TokenType): (level: nat)
    ensures level <= 10
  {
    if k == OR then 1
    else if k == AND then 2
    else if k == BIT_OR then 3
    else if k == BIT_XOR then 4
    else if k == BIT_AND then 5
    else if k in {EQ, NE} then 6
    else if k in {LT, GT, LE, GE} then 7
    else if k in {LEFT_SHIFT, RIGHT_SHIFT} then 8
    else if k in {PLUS, MINUS} then 9
    else if k in {MULTIPLY, DIVIDE, MODULO} then 10
    else 0
  }

  /** `parseExpression` = `parseLogicalOr`. */
  function ParseExpression(toks: seq<Token>, p: nat): (r: Result<Parsed<Expr>>)
    requires EndsWithEof(toks) && p < |toks|
    ensures Advanced(toks, p, r) && SyntaxFailure(r)
    decreases |toks| - p, 25
  {
    ParseLevel(toks, p, 1)
  }

  /**
   * Precedence level `k` (1 = `parseLogicalOr` ... 10 =
   * `parseMultiplicative`); level 11 is `parseUnary`. A level parses an
   * operand of the next tighter level, then folds every following operator
   * of its own level to the left.
   */
  function ParseLevel(toks: seq<Token>, p: nat, k: nat): (r: Result<Parsed<Expr>>)
    requires EndsWithEof(toks) && p < |toks| && 1 <= k <= 11
    ensures Advanced(toks, p, r) && SyntaxFailure(r)
    decreases |toks| - p, 20 - k
  {
    if k == 11 then ParseUnary(toks, p)
    else
      var left :- ParseLevel(toks, p, k + 1);
      ParseLevelRest(toks, left.node, left.next, k)
  }

  /** The loop of level `k`: `left (op right)*` with `op` of level `k`, folded to the left. */
  function ParseLevelRest(toks: seq<Token>, left: Expr, p: nat, k: nat): (r: Result<Parsed<Expr>>)
    requires EndsWithEof(toks) && p < |toks| && 1 <= k <= 10
    ensures Stayed(toks, p, r) && SyntaxFailure(r)
    ensures OpLevel(toks[p].kind) != k ==> r == Ok(Parsed(left, p))
    decreases |toks| - p, 0
  {
    var op := toks[p];
    if OpLevel(op.kind) != k then Ok(Parsed(left, p))
    else
      var right :- ParseLevel(toks, Adv(toks, p), k + 1);
      ParseLevelRest(toks, BinaryExpression(left, op.value, right.node, op.line, op.column), right.next, k)
  }

  /** `(! | - | ++ | --)* <primary>`, nesting to the right. */
  function ParseUnary(toks: seq<Token>, p: nat): (r: Result<Parsed<Expr>>)
    requires EndsWithEof(toks) && p < |toks|
    ensures Advanced(toks, p, r) && SyntaxFailure(r)
    decreases |toks| - p, 5
  {
    var t := toks[p];
    if t.kind in {NOT, MINUS, INCREMENT, DECREMENT} then
      var operand :- ParseUnary(toks, Adv(toks, p));
      Ok(Parsed(UnaryExpression(t.value, operand.node, t.line, t.column), operand.next))
    else ParsePrimary(toks, p)
  }

  /** Literals, identifiers (with an optional index), calls and parenthesised expressions. */
  function ParsePrimary(toks: seq<Token>, p: nat): (r: Result<Parsed<Expr>>)
    requires EndsWithEof(toks) && p < |toks|
    ensures Advanced(toks, p, r) && SyntaxFailure(r)
    decreases |toks| - p, 4
  {
    var t := toks[p];
    if t.kind == NUMBER then Ok(Parsed(Literal(t.value, NumberLit, t.line, t.column), Adv(toks, p)))
    else if t.kind == CHAR_LITERAL then Ok(Parsed(Literal(t.value, CharLit, t.line, t.column), Adv(toks, p)))
    else if t.kind == STRING_LITERAL then Ok(Parsed(Literal(t.value, StringLit, t.line, t.column), Adv(toks, p)))
    else if t.kind == IDENTIFIER then
      if PeekTok(toks, p, 1).kind == LPAREN then ParseFunctionCall(toks, p)
      else
        var idx :- ParseOptionalIndex(toks, Adv(toks, p));
        Ok(Parsed(Identifier(t.value, idx.node, t.line, t.column), idx.next))
    else if t.kind == LPAREN then
      var e :- ParseExpression(toks, Adv(toks, p));
      var rp :- Expect(toks, e.next, RPAREN, "Expected ) after expression");
      Ok(Parsed(e.node, rp.next))
    else Err(UnexpectedToken(t))
  }

  /** `IDENT ( [<expression> (, <expression>)*] )` */
  function ParseFunctionCall(toks: seq<Token>, p: nat): (r: Result<Parsed<Expr>>)
    requires EndsWithEof(toks) && p < |toks|
    ensures Advanced(toks, p, r) && SyntaxFailure(r)
    ensures r.Ok? ==> r.value.node.FunctionCall? && r.value.node.name == toks[p].value
    decreases |toks| - p, 3
  {
    var t := toks[p];
    var lp :- Expect(toks, Adv(toks, p), LPAREN, "Expected ( after function name");
    var args :- if toks[lp.next].kind == RPAREN then Ok(Parsed([], lp.next)) else ParseCallArgs(toks, lp.next);
    var rp :- Expect(toks, args.next, RPAREN, "Expected ) after function arguments");
    Ok(Parsed(FunctionCall(t.value, args.node, t.line, t.column), rp.next))
  }

  /** `<expression> (, <expression>)*` */
  function ParseCallArgs(toks: seq<Token>, p: nat): (r: Result<Parsed<seq<Expr>>>)
    requires EndsWithEof(toks) && p < |toks|
    ensures Advanced(toks, p, r) && SyntaxFailure(r)
    ensures r.Ok? ==> |r.value.node| >= 1 && toks[r.value.next].kind != COMMA
    decreases |toks| - p, 26
  {
    var e :- ParseExpression(toks, p);
    if toks[e.next].kind != COMMA then Ok(Parsed([e.node], e.next))
    else
      var rest :- ParseCallArgs(toks, Adv(toks, e.next));
      Ok(Parsed([e.node] + rest.node, rest.next))
  }
}
