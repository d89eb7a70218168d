// The recursive-descent parser as the object the compiler drives: a cursor
// over the token list that its methods advance. Every method is proved to
// produce what the matching function of Grammar produces from the position
// it started at, and to stop where that function stops.

module Parsing {
  import opened Util
  import opened Lexer
  import opened Ast
  import G = Grammar

  /**
   * A method's result `r` and final position `pos` agree with the grammar's
   * result: the same node and the same next position, or the same error.
   */
  predicate Agrees<T(==)>(r: Result<T>, pos: nat, spec: Result<G.Parsed<T>>)
  {
    match spec
    case Ok(pr) => r == Ok(pr.node) && pos == pr.next
    case Err(m) => r == Err(m)
  }

  /**
   * One item of a list the grammar defines by right recursion: on failure the
   * whole list fails with the same message; on success the whole list is the
   * item followed by the `rest` parsed from where the item stopped.
   */
  predicate Steps<T(==)>(r: Result<T>, whole: Result<G.Parsed<seq<T>>>, rest: Result<G.Parsed<seq<T>>>)
  {
    match r
    case Err(m) => whole == Err(m)
    case Ok(x) => whole == G.PrependAll([x], rest)
  }

  /**
   * One item of a comma-separated list: on success the list ends with the
   * item when no comma follows (stopping at `pos`), and otherwise continues
   * with the `rest` parsed after the comma.
   */
  predicate Separated<T(==)>(r: Result<T>, whole: Result<G.Parsed<seq<T>>>, atComma: bool, pos: nat,
                             rest: Result<G.Parsed<seq<T>>>)
  {
    match r
    case Err(m) => whole == Err(m)
    case Ok(x) => if atComma then whole == G.PrependAll([x], rest) else whole == Ok(G.Parsed([x], pos))
  }

  /** Putting `xs` and then `x` in front of a list result is putting `xs + [x]` in front. */
  lemma PrependAllAppend<T>(xs: seq<T>, x: T, r: Result<G.Parsed<seq<T>>>)
    ensures G.PrependAll(xs, G.PrependAll([x], r)) == G.PrependAll(xs + [x], r)
  {
    if r.Ok? {
      assert xs + ([x] + r.value.node) == (xs + [x]) + r.value.node;
    }
  }

  /** Putting nothing in front of a list result leaves it unchanged. */
  lemma PrependNone<T>(r: Result<G.Parsed<seq<T>>>)
    ensures G.PrependAll([], r) == r
  {
    if r.Ok? {
      assert [] + r.value.node == r.value.node;
    }
  }

  /** One parameter: the list fails with the name's error, or goes on as `Separated` says. */
  lemma ParamStep(toks: seq<Token>, p: nat)
    requires G.EndsWithEof(toks) && p < |toks| && toks[p].kind in {INT, CHAR}
    ensures match G.Expect(toks, G.Adv(toks, p), IDENTIFIER, "Expected parameter name")
            case Err(m) => G.ParseParamList(toks, p) == Err(m)
            case Ok(pr) => Separated(Ok(Param(toks[p].value, pr.node.value)), G.ParseParamList(toks, p),
                                     toks[pr.next].kind == COMMA, pr.next, G.ParseParamList(toks, G.Adv(toks, pr.next)))
  {
  }

  /** `new Parser(tokens).parse()`: the program the grammar derives from the whole list. */
  method ParseTokens(tokens: seq<Token>) returns (r: Result<Program>)
    requires G.EndsWithEof(tokens)
    ensures r == G.ParseProgram(tokens)
    ensures r.Err? ==> Mentions(r.msg, "expected")
  {
    var parser := new Parser(tokens);
    r := parser.Parse();
  }

  class Parser {
    const tokens: seq<Token>
    var position: nat
    var currentToken: Token

    /** The cursor is inside the list, which ends with EOF, and caches the token under it. */
    ghost predicate Valid()
      reads this
    {
      G.EndsWithEof(tokens) && position < |tokens| && currentToken == tokens[position]
    }

    constructor (tokens: seq<Token>)
      requires G.EndsWithEof(tokens)
      ensures Valid() && this.tokens == tokens && position == 0
    {
      this.tokens := tokens;
      position := 0;
      currentToken := tokens[0];
    }

    /** The token `offset` places ahead; the last token (EOF) past the end. */
    function Peek(offset: nat): Token
      reads this
      requires Valid()
    {
      G.PeekTok(tokens, position, offset)
    }

    /** Moves to the next token, staying on the last one. */
    method Advance()
      requires Valid()
      modifies this
      ensures Valid() && position == G.Adv(tokens, old(position))
    {
      if position < |tokens| - 1 {
        position := position + 1;
        currentToken := tokens[position];
      }
    }

    /** Consumes and returns the current token when it has type `k`; fails otherwise. */
    method Expect(k: TokenType, msg: string) returns (r: Result<Token>)
      requires Valid()
      modifies this
      ensures Valid() && Agrees(r, position, G.Expect(tokens, old(position), k, msg))
    {
      if currentToken.kind != k {
        return Err(G.ExpectMessage(currentToken, k, msg));
      }
      var tok := currentToken;
      Advance();
      return Ok(tok);
    }

    // -------------------------------------------------------------------
    // Program, functions, declarations
    // -------------------------------------------------------------------

    /** `parse`: functions, global declarations and statements up to EOF. */
    method Parse() returns (r: Result<Program>)
      requires Valid()
      modifies this
      ensures Valid() && r == G.ParseTopLevel(tokens, old(position), NewProgram())
    {
      var program := NewProgram();
      while currentToken.kind != EOF
        invariant Valid()
        invariant G.ParseTopLevel(tokens, old(position), NewProgram()) == G.ParseTopLevel(tokens, position, program)
        decreases |tokens| - position
      {
        if currentToken.kind in {INT, CHAR, VOID} {
          var next := Peek(1);
          var next2 := Peek(2);
          if next.kind == IDENTIFIER && next2.kind == LPAREN {
            var fn :- ParseFunctionDeclaration();
            program := program.(functions := program.functions + [fn]);
          } else {
            var decl :- ParseDeclaration();
            program := program.(declarations := program.declarations + [decl]);
          }
        } else {
          var stmt :- ParseStatement();
          program := program.(statements := program.statements + [stmt]);
        }
      }
      return Ok(program);
    }

    method ParseFunctionDeclaration() returns (r: Result<FunctionDecl>)
      requires Valid() && currentToken.kind in {INT, CHAR, VOID}
      modifies this
      ensures Valid() && Agrees(r, position, G.ParseFunctionDeclaration(tokens, old(position)))
    {
      var t := currentToken;
      Advance();
      var nameTok :- Expect(IDENTIFIER, "Expected function name");
      var lp :- Expect(LPAREN, "Expected ( after function name");
      var params: seq<Param> := [];
      if currentToken.kind != RPAREN {
        params :- ParseParameters();
      }
      var rp :- Expect(RPAREN, "Expected ) after parameters");
      var body :- ParseBlock();
      return Ok(FunctionDecl(t.value, nameTok.value, params, body.statements, t.line, t.column));
    }

    /** The parameter loop of `parseFunctionDeclaration`: `TYPE IDENT` pairs separated by commas. */
    method ParseParameters() returns (r: Result<seq<Param>>)
      requires Valid()
      modifies this
      ensures Valid() && Agrees(r, position, G.ParseParamList(tokens, old(position)))
    {
      var params: seq<Param> := [];
      PrependNone(G.ParseParamList(tokens, position));
      while true
        invariant Valid()
        invariant G.ParseParamList(tokens, old(position)) == G.PrependAll(params, G.ParseParamList(tokens, position))
        decreases |tokens| - position
      {
        var param :- ParseParameter();
        if currentToken.kind != COMMA {
          params := params + [param];
          break;
        }
        Advance();
        PrependAllAppend(params, param, G.ParseParamList(tokens, position));
        params := params + [param];
      }
      return Ok(params);
    }

    /** One `TYPE IDENT` parameter, the type being `int` or `char`. */
    method ParseParameter() returns (r: Result<Param>)
      requires Valid()
      modifies this
      ensures Valid() && (r.Ok? ==> old(position) < position)
      ensures Separated(r, G.ParseParamList(tokens, old(position)), currentToken.kind == COMMA, position,
                        G.ParseParamList(tokens, G.Adv(tokens, position)))
    {
      if currentToken.kind !in {INT, CHAR} {
        return Err(G.ExpectedAt("parameter type", currentToken));
      }
      ParamStep(tokens, position);
      var paramType := currentToken.value;
      Advance();
      var nameTok :- Expect(IDENTIFIER, "Expected parameter name");
      return Ok(Param(paramType, nameTok.value));
    }

    method ParseDeclaration() returns (r: Result<Stmt>)
      requires Valid() && currentToken.kind in {INT, CHAR, VOID}
      modifies this
      ensures Valid() && Agrees(r, position, G.ParseDeclaration(tokens, old(position)))
    {
      var t := currentToken;
      Advance();
      var identTok :- Expect(IDENTIFIER, "Expected identifier after type");
      var arr :- ParseArraySuffix();
      var initialValue :- ParseInitializer();
      var semi :- Expect(SEMICOLON, "Expected ; after declaration");
      return Ok(Declaration(t.value, identTok.value, arr.0, arr.1, initialValue, t.line, t.column));
    }

    /** The `[ [NUMBER] ]` part of `parseDeclaration`: whether it is an array, and its size. */
    method ParseArraySuffix() returns (r: Result<(bool, ArraySize)>)
      requires Valid()
      modifies this
      ensures Valid() && Agrees(r, position, G.ParseArraySuffix(tokens, old(position)))
    {
      if currentToken.kind != LBRACKET {
        return Ok((false, NoSize));
      }
      Advance();
      var arraySize := NoSize;
      if currentToken.kind == NUMBER {
        arraySize := G.ArraySizeOf(currentToken.value);
        Advance();
      }
      var rb :- Expect(RBRACKET, "Expected ] after array size");
      return Ok((true, arraySize));
    }

    /** The `= <expression>` part of `parseDeclaration`. */
    method ParseInitializer() returns (r: Result<Option<Expr>>)
      requires Valid()
      modifies this
      ensures Valid() && Agrees(r, position, G.ParseInitializer(tokens, old(position)))
    {
      if currentToken.kind != ASSIGN {
        return Ok(None);
      }
      Advance();
      var e :- ParseExpression();
      return Ok(Some(e));
    }

    // -------------------------------------------------------------------
    // Statements
    // -------------------------------------------------------------------

    method ParseStatement() returns (r: Result<Stmt>)
      requires Valid()
      modifies this
      ensures Valid() && Agrees(r, position, G.ParseStatement(tokens, old(position)))
      decreases |tokens| - position, 35
    {
      var t := currentToken;
      if t.kind == RETURN {
        r := ParseReturnStatement();
      } else if t.kind == LBRACE {
        r := ParseBlock();
      } else if t.kind == IF {
        r := ParseIfStatement();
      } else if t.kind == FOR {
        r := ParseForLoop();
      } else if t.kind == WHILE {
        r := ParseWhileLoop();
      } else if t.kind == DO {
        r := ParseDoWhileLoop();
      } else if t.kind == PRINTF {
        r := ParsePrintf();
      } else if t.kind == SCANF {
        r := ParseScanf();
      } else if t.kind in {INT, CHAR} {
        r := ParseDeclaration();
      } else if t.kind == IDENTIFIER {
        if Peek(1).kind == LPAREN {
          var call :- ParseFunctionCallExpression();
          var semi :- Expect(SEMICOLON, "Expected ; after function call");
          r := Ok(ExpressionStatement(call, t.line, t.column));
        } else {
          r := ParseAssignmentOrExpression();
        }
      } else {
        r := Err(G.UnexpectedToken(t));
      }
    }

    method ParseReturnStatement() returns (r: Result<Stmt>)
      requires Valid()
      modifies this
      ensures Valid() && Agrees(r, position, G.ParseReturn(tokens, old(position)))
    {
      var t := currentToken;
      var kw :- Expect(RETURN, "Expected return");
      var e :- ParseOptionalExpression(SEMICOLON);
      var semi :- Expect(SEMICOLON, "Expected ; after return");
      return Ok(ReturnStatement(e, t.line, t.column));
    }

    /** No expression when the current token is `stop`, otherwise `parseExpression`. */
    method ParseOptionalExpression(stop: TokenType) returns (r: Result<Option<Expr>>)
      requires Valid()
      modifies this
      ensures Valid() && Agrees(r, position, G.ParseOptionalExpression(tokens, old(position), stop))
    {
      if currentToken.kind == stop {
        return Ok(None);
      }
      var e :- ParseExpression();
      return Ok(Some(e));
    }

    method ParseBlock() returns (r: Result<Stmt>)
      requires Valid()
      modifies this
      ensures Valid() && Agrees(r, position, G.ParseBlock(tokens, old(position)))
      decreases |tokens| - position, 30
    {
      var t := currentToken;
      var lb :- Expect(LBRACE, "Expected {");
      ghost var q := position;
      var statements: seq<Stmt> := [];
      PrependNone(G.ParseBlockItems(tokens, position));
      while currentToken.kind != RBRACE && currentToken.kind != EOF
        invariant Valid() && old(position) < q <= position
        invariant G.ParseBlockItems(tokens, q) == G.PrependAll(statements, G.ParseBlockItems(tokens, position))
        decreases |tokens| - position
      {
        var s :- ParseBlockItem();
        PrependAllAppend(statements, s, G.ParseBlockItems(tokens, position));
        statements := statements + [s];
      }
      assert statements + [] == statements;
      var rb :- Expect(RBRACE, "Expected }");
      return Ok(Block(statements, t.line, t.column));
    }

    /** One item of a block: a declaration when it starts with `int` or `char`, otherwise a statement. */
    method ParseBlockItem() returns (r: Result<Stmt>)
      requires Valid() && currentToken.kind !in {RBRACE, EOF}
      modifies this
      ensures Valid() && (r.Ok? ==> old(position) < position)
      ensures Steps(r, G.ParseBlockItems(tokens, old(position)), G.ParseBlockItems(tokens, position))
      decreases |tokens| - position, 38
    {
      if currentToken.kind in {INT, CHAR} {
        r := ParseDeclaration();
      } else {
        r := ParseStatement();
      }
    }

    /** The body of `if`, `else` and the loops: a block's statements, or a single statement. */
    method ParseBody() returns (r: Result<seq<Stmt>>)
      requires Valid()
      modifies this
      ensures Valid() && Agrees(r, position, G.ParseBody(tokens, old(position)))
      decreases |tokens| - position, 36
    {
      if currentToken.kind == LBRACE {
        var block :- ParseBlock();
        return Ok(block.statements);
      }
      var s :- ParseStatement();
      return Ok([s]);
    }

    method ParseIfStatement() returns (r: Result<Stmt>)
      requires Valid()
      modifies this
      ensures Valid() && Agrees(r, position, G.ParseIf(tokens, old(position)))
      decreases |tokens| - position, 30
    {
      var t := currentToken;
      var kw :- Expect(IF, "Expected if");
      var lp :- Expect(LPAREN, "Expected ( after if");
      var condition :- ParseExpression();
      var rp :- Expect(RPAREN, "Expected ) after condition");
      var thenBlock :- ParseBody();
      var elseBlock := NoElse;
      if currentToken.kind == ELSE {
        Advance();
        var body :- ParseBody();
        elseBlock := Else(body);
      }
      return Ok(IfStatement(condition, thenBlock, elseBlock, t.line, t.column));
    }

    method ParseForLoop() returns (r: Result<Stmt>)
      requires Valid()
      modifies this
      ensures Valid() && Agrees(r, position, G.ParseFor(tokens, old(position)))
      decreases |tokens| - position, 30
    {
      var t := currentToken;
      var kw :- Expect(FOR, "Expected for");
      var lp :- Expect(LPAREN, "Expected ( after for");
      var init :- ParseForInit();
      var condition :- ParseOptionalExpression(SEMICOLON);
      var semi :- Expect(SEMICOLON, "Expected ; after for condition");
      var update :- ParseForUpdate();
      var rp :- Expect(RPAREN, "Expected ) after for clauses");
      var body :- ParseBody();
      return Ok(ForLoop(init, condition, update, body, t.line, t.column));
    }

    /** The init clause of `parseForLoop`, with its `;`. */
    method ParseForInit() returns (r: Result<Option<Stmt>>)
      requires Valid()
      modifies this
      ensures Valid() && Agrees(r, position, G.ParseForInit(tokens, old(position)))
    {
      if currentToken.kind == SEMICOLON {
        Advance();
        return Ok(None);
      }
      if currentToken.kind in {INT, CHAR} {
        var d :- ParseDeclaration();
        return Ok(Some(d));
      }
      var a :- ParseAssignment();
      var semi :- Expect(SEMICOLON, "Expected ; after for init");
      return Ok(Some(a));
    }

    /** The update clause of `parseForLoop`. */
    method ParseForUpdate() returns (r: Result<Option<Stmt>>)
      requires Valid()
      modifies this
      ensures Valid() && Agrees(r, position, G.ParseForUpdate(tokens, old(position)))
    {
      if currentToken.kind == RPAREN {
        return Ok(None);
      }
      var a :- ParseAssignment();
      return Ok(Some(a));
    }

    method ParseWhileLoop() returns (r: Result<Stmt>)
      requires Valid()
      modifies this
      ensures Valid() && Agrees(r, position, G.ParseWhile(tokens, old(position)))
      decreases |tokens| - position, 30
    {
      var t := currentToken;
      var kw :- Expect(WHILE, "Expected while");
      var lp :- Expect(LPAREN, "Expected ( after while");
      var condition :- ParseExpression();
      var rp :- Expect(RPAREN, "Expected ) after condition");
      var body :- ParseBody();
      return Ok(WhileLoop(condition, body, t.line, t.column));
    }

    method ParseDoWhileLoop() returns (r: Result<Stmt>)
      requires Valid()
      modifies this
      ensures Valid() && Agrees(r, position, G.ParseDoWhile(tokens, old(position)))
      decreases |tokens| - position, 30
    {
      var t := currentToken;
      var kw :- Expect(DO, "Expected do");
      var body :- ParseBody();
      var wh :- Expect(WHILE, "Expected while after do body");
      var lp :- Expect(LPAREN, "Expected ( after while");
      var condition :- ParseExpression();
      var rp :- Expect(RPAREN, "Expected ) after condition");
      var semi :- Expect(SEMICOLON, "Expected ; after do-while");
      return Ok(DoWhileLoop(body, condition, t.line, t.column));
    }

    method ParsePrintf() returns (r: Result<Stmt>)
      requires Valid()
      modifies this
      ensures Valid() && Agrees(r, position, G.ParsePrintf(tokens, old(position)))
    {
      var t := currentToken;
      var kw :- Expect(PRINTF, "Expected printf");
      var lp :- Expect(LPAREN, "Expected ( after printf");
      var formatTok :- Expect(STRING_LITERAL, "Expected format string");
      var expressions :- ParsePrintfArguments();
      var rp :- Expect(RPAREN, "Expected ) after printf arguments");
      var semi :- Expect(SEMICOLON, "Expected ; after printf");
      return Ok(Printf(formatTok.value, expressions, t.line, t.column));
    }

    /** The argument loop of `parsePrintf`: `(, <expression>)*`. */
    method ParsePrintfArguments() returns (r: Result<seq<Expr>>)
      requires Valid()
      modifies this
      ensures Valid() && Agrees(r, position, G.ParsePrintfArgs(tokens, old(position)))
    {
      var expressions: seq<Expr> := [];
      PrependNone(G.ParsePrintfArgs(tokens, position));
      while currentToken.kind == COMMA
        invariant Valid()
        invariant G.ParsePrintfArgs(tokens, old(position)) == G.PrependAll(expressions, G.ParsePrintfArgs(tokens, position))
        decreases |tokens| - position
      {
        var e :- ParsePrintfArgument();
        PrependAllAppend(expressions, e, G.ParsePrintfArgs(tokens, position));
        expressions := expressions + [e];
      }
      assert expressions + [] == expressions;
      return Ok(expressions);
    }

    /** One `, <expression>` of `parsePrintf`. */
    method ParsePrintfArgument() returns (r: Result<Expr>)
      requires Valid() && currentToken.kind == COMMA
      modifies this
      ensures Valid() && (r.Ok? ==> old(position) < position)
      ensures Steps(r, G.ParsePrintfArgs(tokens, old(position)), G.ParsePrintfArgs(tokens, position))
    {
      Advance();
      r := ParseExpression();
    }

    method ParseScanf() returns (r: Result<Stmt>)
      requires Valid()
      modifies this
      ensures Valid() && Agrees(r, position, G.ParseScanf(tokens, old(position)))
    {
      var t := currentToken;
      var kw :- Expect(SCANF, "Expected scanf");
      var lp :- Expect(LPAREN, "Expected ( after scanf");
      var formatTok :- Expect(STRING_LITERAL, "Expected format string");
      var identifiers :- ParseScanfTargets();
      var rp :- Expect(RPAREN, "Expected ) after scanf arguments");
      var semi :- Expect(SEMICOLON, "Expected ; after scanf");
      return Ok(Scanf(formatTok.value, identifiers, t.line, t.column));
    }

    /** The target loop of `parseScanf`: `(, & IDENT)*`. */
    method ParseScanfTargets() returns (r: Result<seq<string>>)
      requires Valid()
      modifies this
      ensures Valid() && Agrees(r, position, G.ParseScanfArgs(tokens, old(position)))
    {
      var identifiers: seq<string> := [];
      PrependNone(G.ParseScanfArgs(tokens, position));
      while currentToken.kind == COMMA
        invariant Valid()
        invariant G.ParseScanfArgs(tokens, old(position)) == G.PrependAll(identifiers, G.ParseScanfArgs(tokens, position))
        decreases |tokens| - position
      {
        var name :- ParseScanfTarget();
        PrependAllAppend(identifiers, name, G.ParseScanfArgs(tokens, position));
        identifiers := identifiers + [name];
      }
      assert identifiers + [] == identifiers;
      return Ok(identifiers);
    }

    /** One `, & IDENT` of `parseScanf`: the identifier's name. */
    method ParseScanfTarget() returns (r: Result<string>)
      requires Valid() && currentToken.kind == COMMA
      modifies this
      ensures Valid() && (r.Ok? ==> old(position) < position)
      ensures Steps(r, G.ParseScanfArgs(tokens, old(position)), G.ParseScanfArgs(tokens, position))
    {
      Advance();
      var amp :- Expect(BIT_AND, "Expected & before variable in scanf");
      var identTok :- Expect(IDENTIFIER, "Expected identifier");
      return Ok(identTok.value);
    }

    method ParseAssignmentOrExpression() returns (r: Result<Stmt>)
      requires Valid()
      modifies this
      ensures Valid() && Agrees(r, position, G.ParseAssignmentOrExpression(tokens, old(position)))
    {
      var t := currentToken;
      Advance();
      var arrayIndex :- ParseOptionalIndex();
      var op := currentToken;
      if op.kind in {ASSIGN, PLUS_ASSIGN, MINUS_ASSIGN} {
        Advance();
        var e :- ParseExpression();
        var semi :- Expect(SEMICOLON, "Expected ; after assignment");
        return Ok(Assignment(t.value, arrayIndex, op.value, e, t.line, t.column));
      }
      if op.kind in {INCREMENT, DECREMENT} {
        Advance();
        var semi :- Expect(SEMICOLON, "Expected ; after expression");
        var target := Identifier(t.value, arrayIndex, t.line, t.column);
        return Ok(ExpressionStatement(UnaryExpression(op.value, target, t.line, t.column), t.line, t.column));
      }
      return Err(G.ExpectedAt("assignment or expression", t));
    }

    method ParseAssignment() returns (r: Result<Stmt>)
      requires Valid()
      modifies this
      ensures Valid() && Agrees(r, position, G.ParseAssignment(tokens, old(position)))
    {
      var t := currentToken;
      Advance();
      var arrayIndex :- ParseOptionalIndex();
      var op := currentToken;
      if op.kind !in {ASSIGN, PLUS_ASSIGN, MINUS_ASSIGN, INCREMENT, DECREMENT} {
        return Err(G.ExpectedAt("assignment operator", t));
      }
      Advance();
      if op.value == "++" || op.value == "--" {
        var target := Identifier(t.value, arrayIndex, t.line, t.column);
        return Ok(Assignment(t.value, arrayIndex, op.value, UnaryExpression(op.value, target, t.line, t.column),
                             t.line, t.column));
      }
      var e :- ParseExpression();
      return Ok(Assignment(t.value, arrayIndex, op.value, e, t.line, t.column));
    }

    // -------------------------------------------------------------------
    // Expressions
    // -------------------------------------------------------------------

    /** The `[ <expression> ]` after an identifier, in `parsePrimary` and the assignments. */
    method ParseOptionalIndex() returns (r: Result<Option<Expr>>)
      requires Valid()
      modifies this
      ensures Valid() && Agrees(r, position, G.ParseOptionalIndex(tokens, old(position)))
      decreases |tokens| - position, 0
    {
      if currentToken.kind != LBRACKET {
        return Ok(None);
      }
      Advance();
      var e :- ParseExpression();
      var rb :- Expect(RBRACKET, "Expected ] after array index");
      return Ok(Some(e));
    }

    method ParseExpression() returns (r: Result<Expr>)
      requires Valid()
      modifies this
      ensures Valid() && Agrees(r, position, G.ParseExpression(tokens, old(position)))
      decreases |tokens| - position, 25
    {
      r := ParseLevel(1);
    }

    /**
     * `parseLogicalOr` (k = 1) down to `parseMultiplicative` (k = 10): an
     * operand of level k + 1, then a loop folding every operator of level k
     * to the left; level 11 is `parseUnary`.
     */
    method ParseLevel(k: nat) returns (r: Result<Expr>)
      requires Valid() && 1 <= k <= 11
      modifies this
      ensures Valid() && Agrees(r, position, G.ParseLevel(tokens, old(position), k))
      decreases |tokens| - position, 20 - k
    {
      if k == 11 {
        r := ParseUnary();
        return;
      }
      var left :- ParseLevel(k + 1);
      while G.OpLevel(currentToken.kind) == k
        invariant Valid() && old(position) < position
        invariant G.ParseLevel(tokens, old(position), k) == G.ParseLevelRest(tokens, left, position, k)
        decreases |tokens| - position
      {
        left :- ParseLevelStep(left, k);
      }
      return Ok(left);
    }

    /** One pass of level `k`'s loop: the operator and its right operand, folded onto `left`. */
    method ParseLevelStep(left: Expr, k: nat) returns (r: Result<Expr>)
      requires Valid() && 1 <= k <= 10 && G.OpLevel(currentToken.kind) == k
      modifies this
      ensures Valid() && (r.Ok? ==> old(position) < position)
      ensures r.Err? ==> G.ParseLevelRest(tokens, left, old(position), k) == Err(r.msg)
      ensures r.Ok? ==> G.ParseLevelRest(tokens, left, old(position), k) == G.ParseLevelRest(tokens, r.value, position, k)
      decreases |tokens| - position, 0
    {
      var op := currentToken;
      Advance();
      var right :- ParseLevel(k + 1);
      return Ok(BinaryExpression(left, op.value, right, op.line, op.column));
    }

    method ParseUnary() returns (r: Result<Expr>)
      requires Valid()
      modifies this
      ensures Valid() && Agrees(r, position, G.ParseUnary(tokens, old(position)))
      decreases |tokens| - position, 5
    {
      var t := currentToken;
      if t.kind in {NOT, MINUS, INCREMENT, DECREMENT} {
        Advance();
        var operand :- ParseUnary();
        return Ok(UnaryExpression(t.value, operand, t.line, t.column));
      }
      r := ParsePrimary();
    }

    method ParsePrimary() returns (r: Result<Expr>)
      requires Valid()
      modifies this
      ensures Valid() && Agrees(r, position, G.ParsePrimary(tokens, old(position)))
      decreases |tokens| - position, 4
    {
      var t := currentToken;
      if t.kind == NUMBER {
        Advance();
        return Ok(Literal(t.value, NumberLit, t.line, t.column));
      }
      if t.kind == CHAR_LITERAL {
        Advance();
        return Ok(Literal(t.value, CharLit, t.line, t.column));
      }
      if t.kind == STRING_LITERAL {
        Advance();
        return Ok(Literal(t.value, StringLit, t.line, t.column));
      }
      if t.kind == IDENTIFIER {
        if Peek(1).kind == LPAREN {
          r := ParseFunctionCallExpression();
          return;
        }
        Advance();
        var arrayIndex :- ParseOptionalIndex();
        return Ok(Identifier(t.value, arrayIndex, t.line, t.column));
      }
      if t.kind == LPAREN {
        Advance();
        var e :- ParseExpression();
        var rp :- Expect(RPAREN, "Expected ) after expression");
        return Ok(e);
      }
      return Err(G.UnexpectedToken(t));
    }

    method ParseFunctionCallExpression() returns (r: Result<Expr>)
      requires Valid()
      modifies this
      ensures Valid() && Agrees(r, position, G.ParseFunctionCall(tokens, old(position)))
      decreases |tokens| - position, 3
    {
      var t := currentToken;
      Advance();
      var lp :- Expect(LPAREN, "Expected ( after function name");
      var args: seq<Expr> := [];
      if currentToken.kind != RPAREN {
        args :- ParseCallArguments();
      }
      var rp :- Expect(RPAREN, "Expected ) after function arguments");
      return Ok(FunctionCall(t.value, args, t.line, t.column));
    }

    /** The argument loop of `parseFunctionCallExpression`: `<expression> (, <expression>)*`. */
    method ParseCallArguments() returns (r: Result<seq<Expr>>)
      requires Valid()
      modifies this
      ensures Valid() && Agrees(r, position, G.ParseCallArgs(tokens, old(position)))
      decreases |tokens| - position, 27
    {
      var args: seq<Expr> := [];
      PrependNone(G.ParseCallArgs(tokens, position));
      while true
        invariant Valid() && old(position) <= position
        invariant G.ParseCallArgs(tokens, old(position)) == G.PrependAll(args, G.ParseCallArgs(tokens, position))
        decreases |tokens| - position
      {
        var e :- ParseCallArgument();
        if currentToken.kind != COMMA {
          args := args + [e];
          break;
        }
        Advance();
        PrependAllAppend(args, e, G.ParseCallArgs(tokens, position));
        args := args + [e];
      }
      return Ok(args);
    }

    /** One argument of a call, with whether a comma follows it. */
    method ParseCallArgument() returns (r: Result<Expr>)
      requires Valid()
      modifies this
      ensures Valid() && (r.Ok? ==> old(position) < position)
      ensures Separated(r, G.ParseCallArgs(tokens, old(position)), currentToken.kind == COMMA, position,
                        G.ParseCallArgs(tokens, G.Adv(tokens, position)))
      decreases |tokens| - position, 26
    {
      r := ParseExpression();
    }
  }
}
