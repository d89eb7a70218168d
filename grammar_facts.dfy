/*
 * What the grammar promises about the trees it builds: the shape of
 * declarations, parameter lists and scanf targets, operator binding
 * strength and associativity, the `x++` forms, and the top-level dispatch.
 */
module GrammarFacts {
  import opened Util
  import opened Lexer
  import opened Ast
  import opened Grammar

  // ---------------------------------------------------------------------
  // Declarations, parameters, scanf targets
  // ---------------------------------------------------------------------

  /** The shape a parsed declaration has: see `DeclarationShape`. */
  predicate DeclShaped(toks: seq<Token>, p: nat, d: Stmt, next: nat)
  {
    d.Declaration? && p + 2 < |toks| && 0 < next <= |toks| &&
    d.dataType == toks[p].value && toks[p + 1].kind == IDENTIFIER && d.identifier == toks[p + 1].value &&
    (d.isArray <==> toks[p + 2].kind == LBRACKET) &&
    (d.isArray ==> p + 3 < |toks| &&
                   (toks[p + 3].kind == NUMBER ==> d.arraySize == ArraySizeOf(toks[p + 3].value)) &&
                   (toks[p + 3].kind != NUMBER ==> d.arraySize == NoSize)) &&
    (!d.isArray ==> d.arraySize == NoSize) &&
    toks[next - 1].kind == SEMICOLON
  }

  /**
   * A declaration is `TYPE IDENT`, then `[` makes it an array (its size is
   * `parseInt` of the NUMBER right after `[`, or absent when there is none),
   * and it ends with `;`.
   */
  lemma DeclarationShape(toks: seq<Token>, p: nat)
    requires EndsWithEof(toks) && p < |toks| && toks[p].kind in {INT, CHAR, VOID}
    requires ParseDeclaration(toks, p).Ok?
    ensures DeclShaped(toks, p, ParseDeclaration(toks, p).value.node, ParseDeclaration(toks, p).value.next)
  {
    var id := Expect(toks, Adv(toks, p), IDENTIFIER, "Expected identifier after type");
    var arr := ParseArraySuffix(toks, p + 2);
    var init := ParseInitializer(toks, arr.value.next);
    var semi := Expect(toks, init.value.next, SEMICOLON, "Expected ; after declaration");
    assert id.Ok? && arr.Ok? && init.Ok? && semi.Ok?;
    var t := toks[p];
    assert ParseDeclaration(toks, p) == Ok(Parsed(Declaration(t.value, toks[p + 1].value, arr.value.node.0,
      arr.value.node.1, init.value.node, t.line, t.column), semi.value.next));
  }

  /** The i-th parameter comes from the tokens at `p + 3i` and `p + 3i + 1`. */
  predicate ParamAt(toks: seq<Token>, p: nat, ps: seq<Param>, i: nat)
    requires i < |ps|
  {
    p + 3 * i + 1 < |toks| &&
    toks[p + 3 * i].kind in {INT, CHAR} && toks[p + 3 * i + 1].kind == IDENTIFIER &&
    ps[i] == Param(toks[p + 3 * i].value, toks[p + 3 * i + 1].value) &&
    (i + 1 < |ps| ==> p + 3 * i + 2 < |toks| && toks[p + 3 * i + 2].kind == COMMA)
  }

  /** A parameter list `TYPE IDENT (, TYPE IDENT)*` ending before `next`. */
  predicate ParamsShaped(toks: seq<Token>, p: nat, ps: seq<Param>, next: nat)
  {
    |ps| >= 1 && next == p + 3 * |ps| - 1 && next < |toks| && toks[next].kind != COMMA &&
    forall i :: 0 <= i < |ps| ==> ParamAt(toks, p, ps, i)
  }

  /** Any token other than `int` or `char` where a parameter type belongs is an error. */
  lemma ParamTypeError(toks: seq<Token>, p: nat)
    requires EndsWithEof(toks) && p < |toks| && toks[p].kind !in {INT, CHAR}
    ensures ParseParamList(toks, p) == Err(ExpectedAt("parameter type", toks[p]))
  {
  }

  /**
   * A parameter list is `TYPE IDENT (, TYPE IDENT)*` with every TYPE `int`
   * or `char`: the i-th parameter comes from the tokens at `p + 3i` and
   * `p + 3i + 1`.
   */
  lemma {:induction false} ParamListShape(toks: seq<Token>, p: nat)
    requires EndsWithEof(toks) && p < |toks| && ParseParamList(toks, p).Ok?
    ensures ParamsShaped(toks, p, ParseParamList(toks, p).value.node, ParseParamList(toks, p).value.next)
    decreases |toks| - p
  {
    var r := ParseParamList(toks, p);
    var name := Expect(toks, p + 1, IDENTIFIER, "Expected parameter name");
    assert toks[p].kind in {INT, CHAR} && name.Ok?;
    var param := Param(toks[p].value, toks[p + 1].value);
    if toks[p + 2].kind != COMMA {
      assert r == Ok(Parsed([param], p + 2));
      assert ParamAt(toks, p, [param], 0);
    } else {
      var rest := ParseParamList(toks, p + 3);
      assert r == Ok(Parsed([param] + rest.value.node, rest.value.next));
      ParamListShape(toks, p + 3);
      ParamsCons(toks, p, param, rest.value.node, rest.value.next);
    }
  }

  /** Putting a parameter read at `p` in front of a list read at `p + 3`. */
  lemma ParamsCons(toks: seq<Token>, p: nat, param: Param, rest: seq<Param>, next: nat)
    requires ParamsShaped(toks, p + 3, rest, next)
    requires p + 2 < |toks| && toks[p].kind in {INT, CHAR} && toks[p + 1].kind == IDENTIFIER
    requires toks[p + 2].kind == COMMA && param == Param(toks[p].value, toks[p + 1].value)
    ensures ParamsShaped(toks, p, [param] + rest, next)
  {
    var ps := [param] + rest;
    forall i | 0 <= i < |ps|
      ensures ParamAt(toks, p, ps, i)
    {
      if i > 0 {
        assert ParamAt(toks, p + 3, rest, i - 1);
        assert p + 3 * i == (p + 3) + 3 * (i - 1);
      }
    }
  }

  /** The i-th scanf target is the identifier at `p + 3i + 2`, after a comma and `&`. */
  predicate TargetAt(toks: seq<Token>, p: nat, ids: seq<string>, i: nat)
    requires i < |ids|
  {
    p + 3 * i + 2 < |toks| &&
    toks[p + 3 * i].kind == COMMA && toks[p + 3 * i + 1].kind == BIT_AND &&
    toks[p + 3 * i + 2].kind == IDENTIFIER && ids[i] == toks[p + 3 * i + 2].value
  }

  /** scanf targets `(, & IDENT)*` ending before `next`. */
  predicate TargetsShaped(toks: seq<Token>, p: nat, ids: seq<string>, next: nat)
  {
    next == p + 3 * |ids| && next < |toks| && toks[next].kind != COMMA &&
    forall i :: 0 <= i < |ids| ==> TargetAt(toks, p, ids, i)
  }

  /** A comma followed by anything but `&` is an error. */
  lemma ScanfTargetError(toks: seq<Token>, p: nat)
    requires EndsWithEof(toks) && p < |toks| && toks[p].kind == COMMA && toks[p + 1].kind != BIT_AND
    ensures ParseScanfArgs(toks, p) == Err(ExpectMessage(toks[p + 1], BIT_AND, "Expected & before variable in scanf"))
  {
    assert Adv(toks, p) == p + 1;
  }

  /**
   * scanf targets are `(, & IDENT)*`: the i-th target is the identifier at
   * `p + 3i + 2`, preceded by a comma and `&`.
   */
  lemma {:induction false} ScanfArgsShape(toks: seq<Token>, p: nat)
    requires EndsWithEof(toks) && p < |toks| && ParseScanfArgs(toks, p).Ok?
    ensures TargetsShaped(toks, p, ParseScanfArgs(toks, p).value.node, ParseScanfArgs(toks, p).value.next)
    decreases |toks| - p
  {
    var r := ParseScanfArgs(toks, p);
    if toks[p].kind == COMMA {
      var amp := Expect(toks, p + 1, BIT_AND, "Expected & before variable in scanf");
      var id := Expect(toks, p + 2, IDENTIFIER, "Expected identifier");
      assert amp.Ok? && id.Ok?;
      var rest := ParseScanfArgs(toks, p + 3);
      assert r == Ok(Parsed([toks[p + 2].value] + rest.value.node, rest.value.next));
      ScanfArgsShape(toks, p + 3);
      TargetsCons(toks, p, rest.value.node, rest.value.next);
    }
  }

  /** Putting a target read at `p` in front of the targets read at `p + 3`. */
  lemma TargetsCons(toks: seq<Token>, p: nat, rest: seq<string>, next: nat)
    requires TargetsShaped(toks, p + 3, rest, next)
    requires p + 2 < |toks| && toks[p].kind == COMMA && toks[p + 1].kind == BIT_AND
    requires toks[p + 2].kind == IDENTIFIER
    ensures TargetsShaped(toks, p, [toks[p + 2].value] + rest, next)
  {
    var ids := [toks[p + 2].value] + rest;
    forall i | 0 <= i < |ids|
      ensures TargetAt(toks, p, ids, i)
    {
      if i > 0 {
        assert TargetAt(toks, p + 3, rest, i - 1);
        assert p + 3 * i == (p + 3) + 3 * (i - 1);
      }
    }
  }

  // ---------------------------------------------------------------------
  // Operators
  // ---------------------------------------------------------------------

  /** The literal node a NUMBER token becomes. */
  function NumberNode(t: Token): Expr
  {
    Literal(t.value, NumberLit, t.line, t.column)
  }

  /** The binary node an operator token builds. */
  function BinaryNode(left: Expr, op: Token, right: Expr): Expr
  {
    BinaryExpression(left, op.value, right, op.line, op.column)
  }

  lemma NumberAtUnaryLevel(toks: seq<Token>, p: nat)
    requires EndsWithEof(toks) && p < |toks| && toks[p].kind == NUMBER
    ensures Yields(toks, p, 11, NumberNode(toks[p]), p + 1)
  {
    assert ParseUnary(toks, p) == ParsePrimary(toks, p);
  }

  /** Level `k` parses the expression `e`, ending before position `q'`. */
  predicate Yields(toks: seq<Token>, q: nat, k: nat, e: Expr, q': nat)
  {
    EndsWithEof(toks) && q < |toks| && 1 <= k <= 11 && ParseLevel(toks, q, k) == Ok(Parsed(e, q'))
  }

  /** `e` parsed at level `hi`, followed by no operator of the levels `lo` to `hi - 1`. */
  predicate Liftable(toks: seq<Token>, q: nat, lo: nat, hi: nat, e: Expr, q': nat)
  {
    Yields(toks, q, hi, e, q') && 1 <= lo <= hi && !(lo <= OpLevel(toks[q'].kind) < hi)
  }

  /**
   * An operand parsed at level `hi` is also what every looser level `lo`
   * parses, as long as the token after it is no operator of the levels in
   * between.
   */
  lemma {:induction false} LiftLevels(toks: seq<Token>, q: nat, lo: nat, hi: nat, e: Expr, q': nat)
    requires Liftable(toks, q, lo, hi, e, q')
    ensures Yields(toks, q, lo, e, q')
    decreases hi - lo
  {
    if lo < hi {
      NarrowLevels(toks, q, lo, hi, e, q');
      LiftLevels(toks, q, lo + 1, hi, e, q');
      LevelStops(toks, q, lo, e, q');
    }
  }

  lemma NarrowLevels(toks: seq<Token>, q: nat, lo: nat, hi: nat, e: Expr, q': nat)
    requires Liftable(toks, q, lo, hi, e, q') && lo < hi
    ensures Liftable(toks, q, lo + 1, hi, e, q') && q' < |toks| && OpLevel(toks[q'].kind) != lo
  {
  }

  /** Level `k` returns the operand of level `k + 1` when no operator of level `k` follows it. */
  lemma LevelStops(toks: seq<Token>, q: nat, k: nat, e: Expr, q': nat)
    requires Yields(toks, q, k + 1, e, q') && 1 <= k
    requires OpLevel(toks[q'].kind) != k
    ensures Yields(toks, q, k, e, q')
  {
    assert ParseLevelRest(toks, e, q', k) == Ok(Parsed(e, q'));
  }

  /** `left op right` with both operands of level `k + 1`, `op` of level `k` and none after it. */
  predicate Foldable(toks: seq<Token>, q: nat, k: nat, left: Expr, q1: nat, right: Expr, q2: nat)
  {
    Yields(toks, q, k + 1, left, q1) && Yields(toks, q1 + 1, k + 1, right, q2) && 1 <= k &&
    OpLevel(toks[q1].kind) == k && OpLevel(toks[q2].kind) != k
  }

  /** One fold at level `k`: `L op R` with `op` of level `k` and no further operator of that level. */
  lemma FoldOnce(toks: seq<Token>, q: nat, k: nat, left: Expr, q1: nat, right: Expr, q2: nat)
    requires Foldable(toks, q, k, left, q1, right, q2)
    ensures Yields(toks, q, k, BinaryNode(left, toks[q1], right), q2)
  {
    assert Adv(toks, q1) == q1 + 1;
    assert ParseLevelRest(toks, BinaryNode(left, toks[q1], right), q2, k) ==
           Ok(Parsed(BinaryNode(left, toks[q1], right), q2));
  }

  /**
   * `a o1 b o2 c`: three operands, each parsed at the unary level, two
   * binary operators between them, and a token after `c` that is no binary
   * operator.
   */
  predicate ThreeOperandsAt(toks: seq<Token>, p: nat, a: Expr, p1: nat, b: Expr, p2: nat, c: Expr, p3: nat)
  {
    Yields(toks, p, 11, a, p1) && Yields(toks, p1 + 1, 11, b, p2) && Yields(toks, p2 + 1, 11, c, p3) &&
    p3 < |toks| && OpLevel(toks[p1].kind) > 0 && OpLevel(toks[p2].kind) > 0 && OpLevel(toks[p3].kind) == 0
  }

  /** The tree binding strength and left associativity call for on `a o1 b o2 c`. */
  function ThreeTree(a: Expr, o1: Token, b: Expr, o2: Token, c: Expr): Expr
  {
    if OpLevel(o1.kind) < OpLevel(o2.kind) then BinaryNode(a, o1, BinaryNode(b, o2, c))
    else BinaryNode(BinaryNode(a, o1, b), o2, c)
  }

  /**
   * Binding strength and associativity, on `a o1 b o2 c` for any operands
   * the unary level parses: when `o2` binds strictly tighter than `o1` the
   * tree is `a o1 (b o2 c)`; otherwise, and in particular when both have
   * the same level, it is `(a o1 b) o2 c`.
   */
  lemma ThreeOperands(toks: seq<Token>, p: nat, a: Expr, p1: nat, b: Expr, p2: nat, c: Expr, p3: nat)
    requires ThreeOperandsAt(toks, p, a, p1, b, p2, c, p3)
    ensures ParseExpression(toks, p) == Ok(Parsed(ThreeTree(a, toks[p1], b, toks[p2], c), p3))
  {
    var i, j := OpLevel(toks[p1].kind), OpLevel(toks[p2].kind);
    if i < j {
      TighterSecond(toks, p, a, p1, b, p2, c, p3);
    } else if i == j {
      SameLevel(toks, p, a, p1, b, p2, c, p3);
    } else {
      LooserSecond(toks, p, a, p1, b, p2, c, p3);
    }
  }

  lemma TighterSecond(toks: seq<Token>, p: nat, a: Expr, p1: nat, b: Expr, p2: nat, c: Expr, p3: nat)
    requires ThreeOperandsAt(toks, p, a, p1, b, p2, c, p3) && OpLevel(toks[p1].kind) < OpLevel(toks[p2].kind)
    ensures Yields(toks, p, 1, ThreeTree(a, toks[p1], b, toks[p2], c), p3)
  {
    var i, j := OpLevel(toks[p1].kind), OpLevel(toks[p2].kind);
    LiftLevels(toks, p1 + 1, j + 1, 11, b, p2);
    LiftLevels(toks, p2 + 1, j + 1, 11, c, p3);
    FoldOnce(toks, p1 + 1, j, b, p2, c, p3);
    var bc := BinaryNode(b, toks[p2], c);
    LiftLevels(toks, p1 + 1, i + 1, j, bc, p3);
    LiftLevels(toks, p, i + 1, 11, a, p1);
    FoldOnce(toks, p, i, a, p1, bc, p3);
    LiftLevels(toks, p, 1, i, BinaryNode(a, toks[p1], bc), p3);
  }

  lemma SameLevel(toks: seq<Token>, p: nat, a: Expr, p1: nat, b: Expr, p2: nat, c: Expr, p3: nat)
    requires ThreeOperandsAt(toks, p, a, p1, b, p2, c, p3) && OpLevel(toks[p1].kind) == OpLevel(toks[p2].kind)
    ensures Yields(toks, p, 1, ThreeTree(a, toks[p1], b, toks[p2], c), p3)
  {
    var i := OpLevel(toks[p1].kind);
    LiftLevels(toks, p, i + 1, 11, a, p1);
    LiftLevels(toks, p1 + 1, i + 1, 11, b, p2);
    LiftLevels(toks, p2 + 1, i + 1, 11, c, p3);
    var ab := BinaryNode(a, toks[p1], b);
    var abc := BinaryNode(ab, toks[p2], c);
    RestStep(toks, a, p1, i, b, p2);
    RestStep(toks, ab, p2, i, c, p3);
    assert ParseLevelRest(toks, abc, p3, i) == Ok(Parsed(abc, p3));
    LiftLevels(toks, p, 1, i, abc, p3);
  }

  /** One round of the loop of level `k`: an operator of that level and the operand after it fold into `left`. */
  lemma RestStep(toks: seq<Token>, left: Expr, q: nat, k: nat, right: Expr, q': nat)
    requires 1 <= k <= 10 && q < |toks| && OpLevel(toks[q].kind) == k && Yields(toks, q + 1, k + 1, right, q')
    ensures ParseLevelRest(toks, left, q, k) == ParseLevelRest(toks, BinaryNode(left, toks[q], right), q', k)
  {
    assert Adv(toks, q) == q + 1;
  }

  lemma LooserSecond(toks: seq<Token>, p: nat, a: Expr, p1: nat, b: Expr, p2: nat, c: Expr, p3: nat)
    requires ThreeOperandsAt(toks, p, a, p1, b, p2, c, p3) && OpLevel(toks[p1].kind) > OpLevel(toks[p2].kind)
    ensures Yields(toks, p, 1, ThreeTree(a, toks[p1], b, toks[p2], c), p3)
  {
    var i, j := OpLevel(toks[p1].kind), OpLevel(toks[p2].kind);
    LiftLevels(toks, p, i + 1, 11, a, p1);
    LiftLevels(toks, p1 + 1, i + 1, 11, b, p2);
    var ab := BinaryNode(a, toks[p1], b);
    FoldOnce(toks, p, i, a, p1, b, p2);
    LiftLevels(toks, p, j + 1, i, ab, p2);
    LiftLevels(toks, p2 + 1, j + 1, 11, c, p3);
    FoldOnce(toks, p, j, ab, p2, c, p3);
    LiftLevels(toks, p, 1, j, BinaryNode(ab, toks[p2], c), p3);
  }

  /** The numbers case: `n1 o1 n2 o2 n3` parses to the tree above over three number nodes. */
  lemma ThreeNumbers(toks: seq<Token>, p: nat)
    requires EndsWithEof(toks) && p + 5 < |toks|
    requires toks[p].kind == NUMBER && toks[p + 2].kind == NUMBER && toks[p + 4].kind == NUMBER
    requires OpLevel(toks[p + 1].kind) > 0 && OpLevel(toks[p + 3].kind) > 0 && OpLevel(toks[p + 5].kind) == 0
    ensures ParseExpression(toks, p) ==
      Ok(Parsed(ThreeTree(NumberNode(toks[p]), toks[p + 1], NumberNode(toks[p + 2]), toks[p + 3], NumberNode(toks[p + 4])), p + 5))
  {
    NumberAtUnaryLevel(toks, p);
    NumberAtUnaryLevel(toks, p + 2);
    NumberAtUnaryLevel(toks, p + 4);
    ThreeOperands(toks, p, NumberNode(toks[p]), p + 1, NumberNode(toks[p + 2]), p + 3, NumberNode(toks[p + 4]), p + 5);
  }

  /** Prefix unary operators bind tighter than every binary operator: `- a o b` is `(- a) o b`. */
  lemma UnaryBindsTighter(toks: seq<Token>, p: nat)
    requires EndsWithEof(toks) && p + 4 < |toks|
    requires toks[p].kind in {NOT, MINUS, INCREMENT, DECREMENT}
    requires toks[p + 1].kind == NUMBER && toks[p + 3].kind == NUMBER
    requires OpLevel(toks[p + 2].kind) > 0 && OpLevel(toks[p + 4].kind) == 0
    ensures var u := toks[p];
      ParseExpression(toks, p) == Ok(Parsed(
        BinaryNode(UnaryExpression(u.value, NumberNode(toks[p + 1]), u.line, u.column), toks[p + 2],
                   NumberNode(toks[p + 3])), p + 4))
  {
    var u := toks[p];
    var k := OpLevel(toks[p + 2].kind);
    var neg := UnaryExpression(u.value, NumberNode(toks[p + 1]), u.line, u.column);
    NumberAtUnaryLevel(toks, p + 1);
    assert ParseUnary(toks, p + 1) == Ok(Parsed(NumberNode(toks[p + 1]), p + 2));
    assert ParseLevel(toks, p, 11) == Ok(Parsed(neg, p + 2));
    LiftLevels(toks, p, k + 1, 11, neg, p + 2);
    NumberAtUnaryLevel(toks, p + 3);
    LiftLevels(toks, p + 3, k + 1, 11, NumberNode(toks[p + 3]), p + 4);
    FoldOnce(toks, p, k, neg, p + 2, NumberNode(toks[p + 3]), p + 4);
    LiftLevels(toks, p, 1, k, BinaryNode(neg, toks[p + 2], NumberNode(toks[p + 3])), p + 4);
  }

  // ---------------------------------------------------------------------
  // Increment and decrement
  // ---------------------------------------------------------------------

  /** The statement `x++;` (or `x--;`) is an expression statement around a unary node on `x`. */
  lemma IncrementStatement(toks: seq<Token>, p: nat)
    requires EndsWithEof(toks) && p + 2 < |toks|
    requires toks[p].kind == IDENTIFIER && toks[p + 1].kind in {INCREMENT, DECREMENT} && toks[p + 2].kind == SEMICOLON
    ensures var x, op := toks[p], toks[p + 1];
      ParseStatement(toks, p) == Ok(Parsed(
        ExpressionStatement(UnaryExpression(op.value, Identifier(x.value, None, x.line, x.column), x.line, x.column),
                            x.line, x.column), p + 3))
  {
    assert PeekTok(toks, p, 1) == toks[p + 1];
    assert ParseOptionalIndex(toks, p + 1) == Ok(Parsed(None, p + 1));
  }

  /**
   * In a `for` clause, `x++` (or `x--`) is an assignment with operator `++`
   * whose expression is the same unary node on `x`.
   */
  lemma IncrementUpdate(toks: seq<Token>, p: nat)
    requires EndsWithEof(toks) && p + 1 < |toks|
    requires toks[p + 1].kind in {INCREMENT, DECREMENT} && toks[p + 1].value in {"++", "--"}
    requires toks[p].kind == IDENTIFIER
    ensures var x, op := toks[p], toks[p + 1];
      ParseAssignment(toks, p) == Ok(Parsed(
        Assignment(x.value, None, op.value, UnaryExpression(op.value, Identifier(x.value, None, x.line, x.column),
                   x.line, x.column), x.line, x.column), p + 2))
  {
    assert ParseOptionalIndex(toks, p + 1) == Ok(Parsed(None, p + 1));
  }

  // ---------------------------------------------------------------------
  // Top level
  // ---------------------------------------------------------------------

  /** `prog` holds the lists of `acc`, each possibly extended at its end. */
  predicate Extends(acc: Program, prog: Program)
  {
    acc.functions <= prog.functions && acc.declarations <= prog.declarations && acc.statements <= prog.statements
  }

  predicate TopLevelOk(toks: seq<Token>, p: nat, acc: Program)
  {
    EndsWithEof(toks) && p < |toks| && ParseTopLevel(toks, p, acc).Ok?
  }

  /** The top-level loop only appends to the three lists it is given. */
  lemma {:induction false} TopLevelExtends(toks: seq<Token>, p: nat, acc: Program)
    requires TopLevelOk(toks, p, acc)
    ensures Extends(acc, ParseTopLevel(toks, p, acc).value)
    decreases |toks| - p
  {
    if toks[p].kind != EOF {
      var next, acc' := TopLevelStep(toks, p, acc);
      TopLevelExtends(toks, next, acc');
    }
  }

  /** One round of the top-level loop: a position further on and one more entry. */
  lemma TopLevelStep(toks: seq<Token>, p: nat, acc: Program) returns (next: nat, acc': Program)
    requires TopLevelOk(toks, p, acc) && toks[p].kind != EOF
    ensures p < next && TopLevelOk(toks, next, acc') && Extends(acc, acc')
    ensures AllDeclarations(acc) ==> AllDeclarations(acc')
    ensures ParseTopLevel(toks, p, acc) == ParseTopLevel(toks, next, acc')
  {
    var t := toks[p];
    if t.kind in {INT, CHAR, VOID} {
      if PeekTok(toks, p, 1).kind == IDENTIFIER && PeekTok(toks, p, 2).kind == LPAREN {
        next, acc' := TopLevelFunction(toks, p, acc);
      } else {
        next, acc' := TopLevelDeclaration(toks, p, acc);
      }
    } else {
      next, acc' := TopLevelStatement(toks, p, acc);
    }
  }

  lemma TopLevelFunction(toks: seq<Token>, p: nat, acc: Program) returns (next: nat, acc': Program)
    requires TopLevelOk(toks, p, acc) && toks[p].kind in {INT, CHAR, VOID}
    requires PeekTok(toks, p, 1).kind == IDENTIFIER && PeekTok(toks, p, 2).kind == LPAREN
    ensures p < next && TopLevelOk(toks, next, acc') && Extends(acc, acc')
    ensures AllDeclarations(acc) ==> AllDeclarations(acc')
    ensures ParseTopLevel(toks, p, acc) == ParseTopLevel(toks, next, acc')
  {
    assert ParseFunctionDeclaration(toks, p).Ok?;
    var f := ParseFunctionDeclaration(toks, p).value;
    next, acc' := f.next, acc.(functions := acc.functions + [f.node]);
    assert acc'.declarations == acc.declarations;
  }

  lemma TopLevelDeclaration(toks: seq<Token>, p: nat, acc: Program) returns (next: nat, acc': Program)
    requires TopLevelOk(toks, p, acc) && toks[p].kind in {INT, CHAR, VOID}
    requires !(PeekTok(toks, p, 1).kind == IDENTIFIER && PeekTok(toks, p, 2).kind == LPAREN)
    ensures p < next && TopLevelOk(toks, next, acc') && Extends(acc, acc')
    ensures AllDeclarations(acc) ==> AllDeclarations(acc')
    ensures ParseTopLevel(toks, p, acc) == ParseTopLevel(toks, next, acc')
  {
    assert ParseDeclaration(toks, p).Ok?;
    var d := ParseDeclaration(toks, p).value;
    next, acc' := d.next, acc.(declarations := acc.declarations + [d.node]);
  }

  lemma TopLevelStatement(toks: seq<Token>, p: nat, acc: Program) returns (next: nat, acc': Program)
    requires TopLevelOk(toks, p, acc) && toks[p].kind !in {INT, CHAR, VOID, EOF}
    ensures p < next && TopLevelOk(toks, next, acc') && Extends(acc, acc')
    ensures AllDeclarations(acc) ==> AllDeclarations(acc')
    ensures ParseTopLevel(toks, p, acc) == ParseTopLevel(toks, next, acc')
  {
    assert ParseStatement(toks, p).Ok?;
    var s := ParseStatement(toks, p).value;
    next, acc' := s.next, acc.(statements := acc.statements + [s.node]);
    assert acc'.declarations == acc.declarations;
  }

  /** Global declarations are exactly what `ParseDeclaration` yields: `Declaration` nodes. */
  predicate AllDeclarations(prog: Program)
  {
    forall d <- prog.declarations :: d.Declaration?
  }

  /** The top-level loop adds only declaration nodes to `declarations`. */
  lemma {:induction false} TopLevelDeclarations(toks: seq<Token>, p: nat, acc: Program)
    requires TopLevelOk(toks, p, acc) && AllDeclarations(acc)
    ensures AllDeclarations(ParseTopLevel(toks, p, acc).value)
    decreases |toks| - p
  {
    if toks[p].kind != EOF {
      var next, acc' := TopLevelStep(toks, p, acc);
      TopLevelDeclarations(toks, next, acc');
    }
  }

  /** Every global declaration of a parsed program is a `Declaration` node. */
  lemma ProgramDeclarations(toks: seq<Token>)
    requires EndsWithEof(toks) && ParseProgram(toks).Ok?
    ensures AllDeclarations(ParseProgram(toks).value)
  {
    TopLevelDeclarations(toks, 0, NewProgram());
  }

  /**
   * Top-level dispatch: a type keyword followed by `IDENT (` yields a
   * function (the first new entry of `functions`); any other type keyword a
   * global declaration; any other token a top-level statement.
   */
  lemma TopLevelDispatch(toks: seq<Token>, p: nat, acc: Program)
    requires EndsWithEof(toks) && p < |toks| && toks[p].kind != EOF
    requires ParseTopLevel(toks, p, acc).Ok?
    ensures var prog := ParseTopLevel(toks, p, acc).value;
      var isType := toks[p].kind in {INT, CHAR, VOID};
      var isFunction := isType && PeekTok(toks, p, 1).kind == IDENTIFIER && PeekTok(toks, p, 2).kind == LPAREN;
      (isFunction ==> |prog.functions| > |acc.functions| &&
                      Ok(Parsed(prog.functions[|acc.functions|], ParseFunctionDeclaration(toks, p).value.next))
                      == ParseFunctionDeclaration(toks, p)) &&
      (isType && !isFunction ==> |prog.declarations| > |acc.declarations| &&
                                 Ok(Parsed(prog.declarations[|acc.declarations|], ParseDeclaration(toks, p).value.next))
                                 == ParseDeclaration(toks, p)) &&
      (!isType ==> |prog.statements| > |acc.statements| &&
                   Ok(Parsed(prog.statements[|acc.statements|], ParseStatement(toks, p).value.next))
                   == ParseStatement(toks, p))
  {
    var t := toks[p];
    if t.kind in {INT, CHAR, VOID} {
      if PeekTok(toks, p, 1).kind == IDENTIFIER && PeekTok(toks, p, 2).kind == LPAREN {
        var f := ParseFunctionDeclaration(toks, p).value;
        var acc' := acc.(functions := acc.functions + [f.node]);
        TopLevelExtends(toks, f.next, acc');
        assert acc'.functions[|acc.functions|] == f.node;
      } else {
        var d := ParseDeclaration(toks, p).value;
        var acc' := acc.(declarations := acc.declarations + [d.node]);
        TopLevelExtends(toks, d.next, acc');
        assert acc'.declarations[|acc.declarations|] == d.node;
      }
    } else {
      var s := ParseStatement(toks, p).value;
      var acc' := acc.(statements := acc.statements + [s.node]);
      TopLevelExtends(toks, s.next, acc');
      assert acc'.statements[|acc.statements|] == s.node;
    }
  }

  /** A token list holding only EOF parses to the empty program. */
  lemma EmptyTokenList(eof: Token)
    requires eof.kind == EOF
    ensures ParseProgram([eof]) == Ok(NewProgram())
  {
  }
}
