/*
 * The lexer (backend/src/compiler/lexer/tokenizer.js).
 *
 * The first half of the module is a functional specification of the scan:
 * positions are indices into the input, and a token's line and column are
 * the ones `advance` has counted when the scan reaches its first character
 * (`LineCol`). The second half is the `Tokenizer` class, whose methods walk
 * the input one `Advance` at a time and are proved to compute exactly what
 * the specification says.
 */
module Lexer {
  import opened Util

  datatype TokenType =
    | INT | CHAR | VOID | IF | ELSE | FOR | WHILE | DO | RETURN | PRINTF | SCANF
    | IDENTIFIER | NUMBER | CHAR_LITERAL | STRING_LITERAL
    | ASSIGN | PLUS | MINUS | MULTIPLY | DIVIDE | MODULO
    | EQ | NE | LT | GT | LE | GE
    | AND | OR | NOT
    | BIT_AND | BIT_OR | BIT_XOR | LEFT_SHIFT | RIGHT_SHIFT
    | PLUS_ASSIGN | MINUS_ASSIGN
    | INCREMENT | DECREMENT
    | SEMICOLON | COMMA | LPAREN | RPAREN | LBRACE | RBRACE | LBRACKET | RBRACKET
    | EOF

  /** The string each `TokenType` member stands for (used in parser messages). */
  function TypeName(t: TokenType): string
  {
    match t
    case INT => "INT" case CHAR => "CHAR" case VOID => "VOID" case IF => "IF"
    case ELSE => "ELSE" case FOR => "FOR" case WHILE => "WHILE" case DO => "DO"
    case RETURN => "RETURN" case PRINTF => "PRINTF" case SCANF => "SCANF"
    case IDENTIFIER => "IDENTIFIER" case NUMBER => "NUMBER"
    case CHAR_LITERAL => "CHAR_LITERAL" case STRING_LITERAL => "STRING_LITERAL"
    case ASSIGN => "ASSIGN" case PLUS => "PLUS" case MINUS => "MINUS"
    case MULTIPLY => "MULTIPLY" case DIVIDE => "DIVIDE" case MODULO => "MODULO"
    case EQ => "EQ" case NE => "NE" case LT => "LT" case GT => "GT" case LE => "LE" case GE => "GE"
    case AND => "AND" case OR => "OR" case NOT => "NOT"
    case BIT_AND => "BIT_AND" case BIT_OR => "BIT_OR" case BIT_XOR => "BIT_XOR"
    case LEFT_SHIFT => "LEFT_SHIFT" case RIGHT_SHIFT => "RIGHT_SHIFT"
    case PLUS_ASSIGN => "PLUS_ASSIGN" case MINUS_ASSIGN => "MINUS_ASSIGN"
    case INCREMENT => "INCREMENT" case DECREMENT => "DECREMENT"
    case SEMICOLON => "SEMICOLON" case COMMA => "COMMA" case LPAREN => "LPAREN"
    case RPAREN => "RPAREN" case LBRACE => "LBRACE" case RBRACE => "RBRACE"
    case LBRACKET => "LBRACKET" case RBRACKET => "RBRACKET" case EOF => "EOF"
  }

  datatype Token = Token(kind: TokenType, value: string, line: int, column: int)

  // ---------------------------------------------------------------------
  // Character classes
  // ---------------------------------------------------------------------

  predicate IsIdentStart(c: char) { IsLetter(c) || c == '_' }

  predicate IsIdentChar(c: char) { IsLetter(c) || IsDigit(c) || c == '_' }

  datatype CharClass = IdentChars | DecimalDigits | HexDigits

  predicate InClass(c: char, cls: CharClass)
  {
    match cls
    case IdentChars => IsIdentChar(c)
    case DecimalDigits => IsDigit(c)
    case HexDigits => IsHexDigit(c)
  }

  /** The keyword table: the eleven reserved words and their token types. */
  function KeywordKind(word: string): (t: TokenType)
    ensures t != IDENTIFIER <==>
      word in ["int", "char", "void", "if", "else", "for", "while", "do", "return", "printf", "scanf"]
    ensures t in {INT, CHAR, VOID, IF, ELSE, FOR, WHILE, DO, RETURN, PRINTF, SCANF, IDENTIFIER}
  {
    if word == "int" then INT
    else if word == "char" then CHAR
    else if word == "void" then VOID
    else if word == "if" then IF
    else if word == "else" then ELSE
    else if word == "for" then FOR
    else if word == "while" then WHILE
    else if word == "do" then DO
    else if word == "return" then RETURN
    else if word == "printf" then PRINTF
    else if word == "scanf" then SCANF
    else IDENTIFIER
  }

  // ---------------------------------------------------------------------
  // Positions
  // ---------------------------------------------------------------------

  /** The current character at position `p`; `None` past the end (JavaScript's `null`). */
  function CharAt(input: string, p: nat): Option<char>
  {
    if p < |input| then Some(input[p]) else None
  }

  /**
   * Line and column after `p` calls of `advance` from the start: a newline
   * moves to column 1 of the next line, any other step (also past the end)
   * moves one column to the right.
   */
  function LineCol(input: string, p: nat): (int, int)
  {
    if p == 0 then (1, 1)
    else
      var (l, c) := LineCol(input, p - 1);
      if p - 1 < |input| && input[p - 1] == '\n' then (l + 1, 1) else (l, c + 1)
  }

  function CountNewlines(s: string): nat
  {
    if s == [] then 0 else CountNewlines(s[..|s| - 1]) + (if s[|s| - 1] == '\n' then 1 else 0)
  }

  /** The line of position `p` is one more than the number of newlines before it. */
  lemma {:induction false} LineIsNewlinesPlusOne(input: string, p: nat)
    requires p <= |input|
    ensures LineCol(input, p).0 == 1 + CountNewlines(input[..p])
  {
    if p > 0 {
      LineIsNewlinesPlusOne(input, p - 1);
      assert input[..p][..p - 1] == input[..p - 1];
    }
  }

  /** Column 1 is exactly where a line starts: at the beginning, or right after a newline. */
  lemma {:induction false} ColumnOneAtLineStart(input: string, p: nat)
    requires p <= |input|
    ensures LineCol(input, p).1 == 1 <==> p == 0 || input[p - 1] == '\n'
    ensures LineCol(input, p).1 >= 1
  {
    if p > 0 {
      ColumnOneAtLineStart(input, p - 1);
    }
  }

  // ---------------------------------------------------------------------
  // Trivia: white space and comments
  // ---------------------------------------------------------------------

  /** End of the run of white space starting at `p`. */
  function SkipSpaces(input: string, p: nat): (q: nat)
    ensures p <= q && (p <= |input| ==> q <= |input|)
    ensures forall k :: p <= k < q ==> k < |input| && IsJsSpace(input[k])
    ensures q < |input| ==> !IsJsSpace(input[q])
    decreases |input| - p
  {
    if p < |input| && IsJsSpace(input[p]) then SkipSpaces(input, p + 1) else p
  }

  /** A `//` comment: everything up to the newline, then one more step past it. */
  function LineCommentEnd(input: string, p: nat): (q: nat)
    requires p <= |input|
    ensures p < q <= |input| + 1
    ensures forall k :: p <= k < q - 1 ==> k < |input| && input[k] != '\n'
    ensures q - 1 < |input| ==> input[q - 1] == '\n'
    decreases |input| - p
  {
    if p < |input| && input[p] != '\n' then LineCommentEnd(input, p + 1) else p + 1
  }

  /** A closing star-slash starts at index `k`. */
  predicate ClosesAt(input: string, k: int)
  {
    0 <= k && k + 1 < |input| && input[k] == '*' && input[k + 1] == '/'
  }

  /**
   * The body of a block comment from `p` (just after the opening slash and
   * star): up to and including the first closing star-slash, or to the end of
   * the input when there is none.
   */
  function BlockCommentEnd(input: string, p: nat): (q: nat)
    requires p <= |input|
    ensures p <= q <= |input|
    ensures (q == |input| && forall k :: p <= k < |input| ==> !ClosesAt(input, k)) ||
            (q >= p + 2 && ClosesAt(input, q - 2) && forall k :: p <= k < q - 2 ==> !ClosesAt(input, k))
    decreases |input| - p
  {
    if p >= |input| then p
    else if ClosesAt(input, p) then p + 2
    else BlockCommentEnd(input, p + 1)
  }

  predicate AtLineComment(input: string, p: nat)
  {
    p + 1 < |input| && input[p] == '/' && input[p + 1] == '/'
  }

  predicate AtBlockComment(input: string, p: nat)
  {
    p + 1 < |input| && input[p] == '/' && input[p + 1] == '*'
  }

  /** Where `skipComment` leaves the scan. */
  function CommentEnd(input: string, p: nat): (q: nat)
    ensures (AtLineComment(input, p) || AtBlockComment(input, p)) ==> p < q
    ensures !(AtLineComment(input, p) || AtBlockComment(input, p)) ==> q == p
  {
    if AtLineComment(input, p) then LineCommentEnd(input, p)
    else if AtBlockComment(input, p) then BlockCommentEnd(input, p + 2)
    else p
  }

  /** `getNextToken`'s loop over white space and comments. */
  function SkipTrivia(input: string, p: nat): (q: nat)
    ensures p <= q
    ensures q < |input| ==> !IsJsSpace(input[q]) && !AtLineComment(input, q) && !AtBlockComment(input, q)
    decreases |input| - p
  {
    if p < |input| && IsJsSpace(input[p]) then SkipTrivia(input, SkipSpaces(input, p))
    else if p < |input| && (AtLineComment(input, p) || AtBlockComment(input, p)) then SkipTrivia(input, CommentEnd(input, p))
    else p
  }

  // ---------------------------------------------------------------------
  // One token
  // ---------------------------------------------------------------------

  /** End of the longest run of characters of class `cls` starting at `p`. */
  function RunEnd(input: string, p: nat, cls: CharClass): (q: nat)
    requires p <= |input|
    ensures p <= q <= |input|
    ensures forall k :: p <= k < q ==> InClass(input[k], cls)
    ensures q < |input| ==> !InClass(input[q], cls)
    decreases |input| - p
  {
    if p < |input| && InClass(input[p], cls) then RunEnd(input, p + 1, cls) else p
  }

  function MakeToken(input: string, kind: TokenType, value: string, start: nat): Token
  {
    Token(kind, value, LineCol(input, start).0, LineCol(input, start).1)
  }

  /** An identifier or keyword: the longest run of letters, digits and underscores. */
  function LexIdentifier(input: string, q: nat): (r: (Token, nat))
    requires q < |input| && IsIdentStart(input[q])
    ensures q < r.1 <= |input|
    ensures r.0.value == input[q..r.1]
    ensures forall k :: q <= k < r.1 ==> IsIdentChar(input[k])
    ensures r.1 < |input| ==> !IsIdentChar(input[r.1])
    ensures r.0.kind == KeywordKind(r.0.value)
  {
    var e := RunEnd(input, q, IdentChars);
    (MakeToken(input, KeywordKind(input[q..e]), input[q..e], q), e)
  }

  /**
   * A number: `0x` followed by the longest run of hexadecimal digits, or else
   * the longest run of decimal digits. The text is kept as written.
   */
  function LexNumber(input: string, q: nat): (r: (Token, nat))
    requires q < |input| && IsDigit(input[q])
    ensures q < r.1 <= |input|
    ensures r.0.kind == NUMBER && r.0.value == input[q..r.1]
    ensures StartsWith(r.0.value, "0x") ==>
      q + 2 <= r.1 && (forall k :: q + 2 <= k < r.1 ==> IsHexDigit(input[k])) &&
      (r.1 < |input| ==> !IsHexDigit(input[r.1]))
    ensures !StartsWith(r.0.value, "0x") ==>
      (forall k :: q <= k < r.1 ==> IsDigit(input[k])) && (r.1 < |input| ==> !IsDigit(input[r.1]))
  {
    if input[q] == '0' && q + 1 < |input| && input[q + 1] == 'x' then
      var e := RunEnd(input, q + 2, HexDigits);
      assert input[q..e][..2] == "0x";
      (MakeToken(input, NUMBER, input[q..e], q), e)
    else
      var e := RunEnd(input, q, DecimalDigits);
      assert input[q..e][0] == input[q];
      (MakeToken(input, NUMBER, input[q..e], q), e)
  }

  function Position(input: string, q: nat): string
  {
    IntToString(LineCol(input, q).0) + ":" + IntToString(LineCol(input, q).1)
  }

  /** Index where the closing quote of a character literal opened at `q` must stand. */
  function CharClose(input: string, q: nat): nat
  {
    if q + 1 < |input| && input[q + 1] == '\\' then q + 3 else q + 2
  }

  /**
   * A character literal: one character, or a backslash and one character,
   * between single quotes. The value is the text between the quotes.
   */
  function LexChar(input: string, q: nat): (r: Result<(Token, nat)>)
    requires q < |input| && input[q] == '\''
    ensures r.Ok? <==> CharClose(input, q) < |input| && input[CharClose(input, q)] == '\''
    ensures r.Ok? ==>
      (r.value.1 == CharClose(input, q) + 1 && r.value.0.kind == CHAR_LITERAL &&
       r.value.0.value == input[q + 1..CharClose(input, q)])
  {
    var close := CharClose(input, q);
    if close < |input| && input[close] == '\'' then
      Ok((MakeToken(input, CHAR_LITERAL, input[q + 1..close], q), close + 1))
    else
      Err(UnterminatedChar(input, q))
  }

  function UnterminatedChar(input: string, q: nat): string
  {
    "Unterminated character literal at line " + Position(input, q)
  }

  /** Index of the double quote that closes a string whose body starts at `p`. */
  function StringClose(input: string, p: nat): (r: Option<nat>)
    ensures r.Some? ==> p <= r.value < |input| && input[r.value] == '"'
    decreases |input| - p
  {
    if p >= |input| then None
    else if input[p] == '"' then Some(p)
    else if input[p] == '\\' then StringClose(input, p + 2)
    else StringClose(input, p + 1)
  }

  /**
   * A string literal. Escape sequences are kept verbatim, so the value is
   * exactly the text between the quotes; a backslash hides the character
   * after it, including a double quote.
   */
  function LexString(input: string, q: nat): (r: Result<(Token, nat)>)
    requires q < |input| && input[q] == '"'
    ensures r.Ok? ==>
      (q + 2 <= r.value.1 <= |input| && r.value.0.kind == STRING_LITERAL &&
       input[r.value.1 - 1] == '"' && r.value.0.value == input[q + 1..r.value.1 - 1])
    ensures r.Err? <==> StringClose(input, q + 1).None?
    ensures r.Err? ==> r.msg == UnterminatedString(input, q)
  {
    match StringClose(input, q + 1)
    case Some(close) => Ok((MakeToken(input, STRING_LITERAL, input[q + 1..close], q), close + 1))
    case None => Err(UnterminatedString(input, q))
  }

  function UnterminatedString(input: string, q: nat): string
  {
    "Unterminated string literal at line " + Position(input, q)
  }

  lemma CharLexed(input: string, q: nat)
    requires q < |input| && input[q] == '\'' && CharClose(input, q) < |input| && input[CharClose(input, q)] == '\''
    ensures LexChar(input, q) ==
            Ok((MakeToken(input, CHAR_LITERAL, input[q + 1..CharClose(input, q)], q), CharClose(input, q) + 1))
  {
  }

  lemma StringLexed(input: string, q: nat, close: nat)
    requires q < |input| && input[q] == '"' && StringClose(input, q + 1) == Some(close)
    ensures LexString(input, q) == Ok((MakeToken(input, STRING_LITERAL, input[q + 1..close], q), close + 1))
  {
  }

  /** The two-character operators, tried in the order the lexer tries them. */
  function TwoCharKind(c: char, d: char): Option<TokenType>
  {
    if c == '=' && d == '=' then Some(EQ)
    else if c == '!' && d == '=' then Some(NE)
    else if c == '<' && d == '=' then Some(LE)
    else if c == '>' && d == '=' then Some(GE)
    else if c == '<' && d == '<' then Some(LEFT_SHIFT)
    else if c == '>' && d == '>' then Some(RIGHT_SHIFT)
    else if c == '&' && d == '&' then Some(AND)
    else if c == '|' && d == '|' then Some(OR)
    else if c == '+' && d == '+' then Some(INCREMENT)
    else if c == '-' && d == '-' then Some(DECREMENT)
    else if c == '+' && d == '=' then Some(PLUS_ASSIGN)
    else if c == '-' && d == '=' then Some(MINUS_ASSIGN)
    else None
  }

  function OneCharKind(c: char): Option<TokenType>
  {
    match c
    case '=' => Some(ASSIGN) case '+' => Some(PLUS) case '-' => Some(MINUS)
    case '*' => Some(MULTIPLY) case '/' => Some(DIVIDE) case '%' => Some(MODULO)
    case '<' => Some(LT) case '>' => Some(GT) case '!' => Some(NOT)
    case '&' => Some(BIT_AND) case '|' => Some(BIT_OR) case '^' => Some(BIT_XOR)
    case ';' => Some(SEMICOLON) case ',' => Some(COMMA)
    case '(' => Some(LPAREN) case ')' => Some(RPAREN)
    case '{' => Some(LBRACE) case '}' => Some(RBRACE)
    case '[' => Some(LBRACKET) case ']' => Some(RBRACKET)
    case _ => None
  }

  /**
   * An operator or punctuation mark. A two-character operator wins over its
   * one-character prefix; a character that starts no operator is an error.
   */
  function LexOperator(input: string, q: nat): (r: Result<(Token, nat)>)
    requires q < |input|
    ensures r.Ok? ==> (r.value.1 == q + 1 || r.value.1 == q + 2) && r.value.1 <= |input|
  {
    if q + 1 < |input| && TwoCharKind(input[q], input[q + 1]).Some? then
      Ok((MakeToken(input, TwoCharKind(input[q], input[q + 1]).value, input[q..q + 2], q), q + 2))
    else
      match OneCharKind(input[q])
      case Some(k) => Ok((MakeToken(input, k, [input[q]], q), q + 1))
      case None => Err(UnexpectedChar(input, q))
  }

  function UnexpectedChar(input: string, q: nat): string
    requires q < |input|
  {
    "Unexpected character '" + [input[q]] + "' at line " + Position(input, q)
  }

  /**
   * Longest match: when the character at `q` and the next one form a
   * two-character operator, that operator is the token; a one-character
   * token is read only when they do not; and a character that starts no
   * operator at all is an "Unexpected character" error at its position.
   */
  lemma OperatorLongestMatch(input: string, q: nat)
    requires q < |input|
    ensures var r := LexOperator(input, q);
      var two := q + 1 < |input| && TwoCharKind(input[q], input[q + 1]).Some?;
      (two ==> r == Ok((MakeToken(input, TwoCharKind(input[q], input[q + 1]).value, input[q..q + 2], q), q + 2))) &&
      (r.Ok? && r.value.1 == q + 1 ==> !two && r.value.0.value == [input[q]] && Some(r.value.0.kind) == OneCharKind(input[q])) &&
      (r.Err? <==> !two && OneCharKind(input[q]).None?) &&
      (r.Err? ==> r.msg == UnexpectedChar(input, q))
  {
  }

  /** The token whose first character is at `q`, chosen by that character. */
  function LexAt(input: string, q: nat): (r: Result<(Token, nat)>)
    requires q < |input|
    ensures r.Ok? ==>
      (q < r.value.1 <= |input| && r.value.0.kind != EOF &&
       r.value.0.line == LineCol(input, q).0 && r.value.0.column == LineCol(input, q).1)
  {
    var c := input[q];
    if IsIdentStart(c) then Ok(LexIdentifier(input, q))
    else if IsDigit(c) then Ok(LexNumber(input, q))
    else if c == '\'' then LexChar(input, q)
    else if c == '"' then LexString(input, q)
    else LexOperator(input, q)
  }

  /** `getNextToken`: skip trivia, then one token, or `EOF` when the input is used up. */
  function NextToken(input: string, p: nat): (r: Result<(Token, nat)>)
    ensures r.Ok? && r.value.0.kind != EOF ==> p < r.value.1 <= |input|
    ensures r.Ok? && r.value.0.kind == EOF ==>
      SkipTrivia(input, p) >= |input| && r.value.1 == SkipTrivia(input, p) &&
      r.value.0 == MakeToken(input, EOF, "", SkipTrivia(input, p))
  {
    var q := SkipTrivia(input, p);
    if q >= |input| then Ok((MakeToken(input, EOF, "", q), q)) else LexAt(input, q)
  }

  /** `tokenize`: the tokens up to and including the first `EOF`. */
  function TokenizeFrom(input: string, p: nat): (r: Result<seq<Token>>)
    decreases |input| - p
  {
    match NextToken(input, p)
    case Err(m) => Err(m)
    case Ok((t, q)) =>
      if t.kind == EOF then Ok([t]) else Prepend([t], TokenizeFrom(input, q))
  }

  /** What `tokenize` produces once it has read token `t`, the scan standing at `q`. */
  function Continue(input: string, t: Token, q: nat): Result<seq<Token>>
    requires t.kind != EOF ==> q <= |input|
  {
    if t.kind == EOF then Ok([t]) else Prepend([t], TokenizeFrom(input, q))
  }

  function Prepend(ts: seq<Token>, r: Result<seq<Token>>): Result<seq<Token>>
  {
    match r
    case Ok(rest) => Ok(ts + rest)
    case Err(m) => Err(m)
  }

  function TokenStream(input: string): Result<seq<Token>>
  {
    TokenizeFrom(input, 0)
  }

  predicate EndsWithSingleEof(ts: seq<Token>)
  {
    |ts| >= 1 && ts[|ts| - 1].kind == EOF && forall i :: 0 <= i < |ts| - 1 ==> ts[i].kind != EOF
  }

  /** A successful scan ends with exactly one `EOF` token, and only there. */
  lemma {:induction false} TokenizeFromEndsWithSingleEof(input: string, p: nat)
    ensures TokenizeFrom(input, p).Ok? ==> EndsWithSingleEof(TokenizeFrom(input, p).value)
    decreases |input| - p
  {
    var r := NextToken(input, p);
    if r.Err? {
      assert TokenizeFrom(input, p).Err?;
    } else if r.value.0.kind == EOF {
      assert TokenizeFrom(input, p) == Ok([r.value.0]);
    } else {
      var t := r.value.0;
      var q := r.value.1;
      TokenizeFromEndsWithSingleEof(input, q);
      var rest := TokenizeFrom(input, q);
      if rest.Err? {
        assert TokenizeFrom(input, p).Err?;
      } else {
        var ts := [t] + rest.value;
        assert TokenizeFrom(input, p) == Ok(ts);
        forall i | 0 <= i < |ts| - 1
          ensures ts[i].kind != EOF
        {
          if i > 0 {
            assert ts[i] == rest.value[i - 1];
          }
        }
      }
    }
  }

  lemma TokenizeEndsWithSingleEof(input: string)
    ensures TokenStream(input).Ok? ==> EndsWithSingleEof(TokenStream(input).value)
  {
    TokenizeFromEndsWithSingleEof(input, 0);
  }

  /** Empty input gives a single `EOF` token at line 1, column 1. */
  lemma TokenizeEmpty()
    ensures TokenStream("") == Ok([Token(EOF, "", 1, 1)])
  {
  }

  /** Comments produce no tokens: scanning from a comment is scanning from its end. */
  lemma CommentsAreSkipped(input: string, p: nat)
    requires AtLineComment(input, p) || AtBlockComment(input, p)
    ensures NextToken(input, p) == NextToken(input, CommentEnd(input, p))
  {
  }

  // ---------------------------------------------------------------------
  // The tokenizer object
  // ---------------------------------------------------------------------

  /** Result of a read that may fail, paired with where the scan stands. */
  function Lexed(r: Result<Token>, pos: nat): Result<(Token, nat)>
  {
    match r
    case Ok(t) => Ok((t, pos))
    case Err(m) => Err(m)
  }

  class Tokenizer {
    const input: string
    var position: nat
    var line: int
    var column: int
    var currentChar: Option<char>

    /** The fields agree with the position: the current character and the counted line and column. */
    ghost predicate Valid()
      reads this
    {
      currentChar == CharAt(input, position) &&
      line == LineCol(input, position).0 && column == LineCol(input, position).1
    }

    constructor(input: string)
      ensures Valid() && this.input == input && position == 0
    {
      this.input := input;
      position := 0;
      line := 1;
      column := 1;
      currentChar := if |input| > 0 then Some(input[0]) else None;
    }

    method Advance()
      requires Valid()
      modifies this
      ensures Valid() && position == old(position) + 1
    {
      if currentChar == Some('\n') {
        line := line + 1;
        column := 0;
      }
      position := position + 1;
      column := column + 1;
      if position >= |input| {
        currentChar := None;
      } else {
        currentChar := Some(input[position]);
      }
    }

    function Peek(offset: nat): (c: Option<char>)
      reads this
      ensures c == CharAt(input, position + offset)
    {
      if position + offset >= |input| then None else Some(input[position + offset])
    }

    method SkipWhitespace()
      requires Valid()
      modifies this
      ensures Valid() && position == SkipSpaces(input, old(position))
    {
      while currentChar.Some? && IsJsSpace(currentChar.value)
        invariant Valid() && old(position) <= position
        invariant SkipSpaces(input, position) == SkipSpaces(input, old(position))
        decreases |input| - position
      {
        Advance();
      }
    }

    method SkipComment()
      requires Valid()
      modifies this
      ensures Valid() && position == CommentEnd(input, old(position))
    {
      if currentChar == Some('/') && Peek(1) == Some('/') {
        SkipLineComment();
      } else if currentChar == Some('/') && Peek(1) == Some('*') {
        SkipBlockComment();
      }
    }

    /** The `//` branch of `skipComment`: up to and past the end of the line. */
    method SkipLineComment()
      requires Valid() && position < |input|
      modifies this
      ensures Valid() && position == LineCommentEnd(input, old(position))
    {
      ghost var start := position;
      while currentChar.Some? && currentChar.value != '\n'
        invariant Valid() && start <= position <= |input|
        invariant LineCommentEnd(input, position) == LineCommentEnd(input, start)
        decreases |input| - position
      {
        Advance();
      }
      Advance();
    }

    /** The `/*` branch of `skipComment`: past the closing `*/`, or to the end of the input. */
    method SkipBlockComment()
      requires Valid() && position + 1 < |input|
      modifies this
      ensures Valid() && position == BlockCommentEnd(input, old(position) + 2)
    {
      ghost var start := position + 2;
      Advance();
      Advance();
      while currentChar.Some?
        invariant Valid() && start <= position <= |input|
        invariant BlockCommentEnd(input, position) == BlockCommentEnd(input, start)
        decreases |input| - position
      {
        if currentChar == Some('*') && Peek(1) == Some('/') {
          Advance();
          Advance();
          return;
        }
        Advance();
      }
    }

    /** Reads the characters of class `cls` from the current one onward. */
    method ReadRun(cls: CharClass) returns (text: string)
      requires Valid() && position <= |input|
      modifies this
      ensures Valid() && position == RunEnd(input, old(position), cls)
      ensures text == input[old(position)..position]
    {
      text := "";
      while currentChar.Some? && InClass(currentChar.value, cls)
        invariant Valid() && old(position) <= position <= |input|
        invariant RunEnd(input, position, cls) == RunEnd(input, old(position), cls)
        invariant text == input[old(position)..position]
        decreases |input| - position
      {
        text := text + [currentChar.value];
        Advance();
      }
    }

    method ReadIdentifier() returns (t: Token)
      requires Valid() && position < |input| && IsIdentStart(input[position])
      modifies this
      ensures Valid() && (t, position) == LexIdentifier(input, old(position))
    {
      var startLine, startColumn := line, column;
      var result := ReadRun(IdentChars);
      t := Token(KeywordKind(result), result, startLine, startColumn);
    }

    method ReadNumber() returns (t: Token)
      requires Valid() && position < |input| && IsDigit(input[position])
      modifies this
      ensures Valid() && (t, position) == LexNumber(input, old(position))
    {
      var startLine, startColumn := line, column;
      var result := "";
      if currentChar == Some('0') && Peek(1) == Some('x') {
        result := "0x";
        Advance();
        Advance();
        var digits := ReadRun(HexDigits);
        result := result + digits;
        assert result == input[old(position)..position];
      } else {
        result := ReadRun(DecimalDigits);
      }
      t := Token(NUMBER, result, startLine, startColumn);
    }

    method ReadCharLiteral() returns (r: Result<Token>)
      requires Valid() && position < |input| && input[position] == '\''
      modifies this
      ensures Valid() && Lexed(r, position) == LexChar(input, old(position))
    {
      var startLine, startColumn := line, column;
      var start := position;
      Advance();
      var text := ReadCharBody(start);
      if currentChar != Some('\'') {
        return Err("Unterminated character literal at line " + IntToString(startLine) + ":" + IntToString(startColumn));
      }
      CharLexed(input, start);
      Advance();
      r := Ok(Token(CHAR_LITERAL, text, startLine, startColumn));
    }

    /** The character, or backslash and character, between the quotes of a char literal. */
    method ReadCharBody(ghost start: nat) returns (text: string)
      requires Valid() && start < |input| && position == start + 1
      modifies this
      ensures Valid() && position == CharClose(input, start)
      ensures position <= |input| ==> text == input[start + 1..position]
    {
      if currentChar == Some('\\') {
        Advance();
        text := "\\" + (if currentChar.Some? then [currentChar.value] else "null");
        Advance();
      } else {
        text := if currentChar.Some? then [currentChar.value] else "null";
        Advance();
      }
    }

    method ReadStringLiteral() returns (r: Result<Token>)
      requires Valid() && position < |input| && input[position] == '"'
      modifies this
      ensures Valid() && Lexed(r, position) == LexString(input, old(position))
    {
      var startLine, startColumn := line, column;
      var start := position;
      Advance();
      var text := "";
      while currentChar.Some? && currentChar.value != '"'
        invariant Valid() && start + 1 <= position <= |input|
        invariant StringClose(input, position) == StringClose(input, start + 1)
        invariant text == input[start + 1..position]
        decreases |input| - position
      {
        text := ReadStringUnit(start, text);
      }
      if currentChar != Some('"') {
        return Err("Unterminated string literal at line " + IntToString(startLine) + ":" + IntToString(startColumn));
      }
      StringLexed(input, start, position);
      Advance();
      r := Ok(Token(STRING_LITERAL, text, startLine, startColumn));
    }

    /** One pass of the string loop: a plain character, or a backslash and the character after it. */
    method ReadStringUnit(ghost start: nat, text: string) returns (text': string)
      requires Valid() && start + 1 <= position < |input| && input[position] != '"'
      requires text == input[start + 1..position]
      modifies this
      ensures Valid() && old(position) < position <= |input|
      ensures StringClose(input, position) == StringClose(input, old(position))
      ensures text' == input[start + 1..position]
    {
      ghost var p0 := position;
      assert currentChar == Some(input[p0]);
      text' := text + [currentChar.value];
      assert input[start + 1..p0 + 1] == text';
      if currentChar == Some('\\') {
        Advance();
        if currentChar.Some? {
          assert position == p0 + 1 && currentChar == Some(input[p0 + 1]);
          text' := text' + [currentChar.value];
          Advance();
          assert input[start + 1..position] == input[start + 1..p0 + 1] + [input[p0 + 1]];
        }
      } else {
        Advance();
      }
    }

    method ReadOperator() returns (r: Result<Token>)
      requires Valid() && position < |input|
      modifies this
      ensures Valid() && Lexed(r, position) == LexOperator(input, old(position))
    {
      var startLine, startColumn := line, column;
      var c := currentChar.value;
      var next := Peek(1);
      if next.Some? && TwoCharKind(c, next.value).Some? {
        assert [c, next.value] == input[position..position + 2];
        Advance();
        Advance();
        return Ok(Token(TwoCharKind(c, next.value).value, [c, next.value], startLine, startColumn));
      }
      Advance();
      match OneCharKind(c)
      case Some(k) =>
        r := Ok(Token(k, [c], startLine, startColumn));
      case None =>
        r := Err("Unexpected character '" + [c] + "' at line " + IntToString(startLine) + ":" + IntToString(startColumn));
    }

    method GetNextToken() returns (r: Result<Token>)
      requires Valid()
      modifies this
      ensures Valid() && Lexed(r, position) == NextToken(input, old(position))
    {
      while currentChar.Some?
        invariant Valid() && old(position) <= position
        invariant SkipTrivia(input, position) == SkipTrivia(input, old(position))
        decreases |input| + 1 - position
      {
        var c := currentChar.value;
        if IsJsSpace(c) {
          SkipWhitespace();
          continue;
        }
        if c == '/' && (Peek(1) == Some('/') || Peek(1) == Some('*')) {
          SkipComment();
          continue;
        }
        if IsIdentStart(c) {
          var t := ReadIdentifier();
          return Ok(t);
        }
        if IsDigit(c) {
          var t := ReadNumber();
          return Ok(t);
        }
        if c == '\'' {
          r := ReadCharLiteral();
          return;
        }
        if c == '"' {
          r := ReadStringLiteral();
          return;
        }
        r := ReadOperator();
        return;
      }
      r := Ok(Token(EOF, "", line, column));
    }

    method Tokenize() returns (r: Result<seq<Token>>)
      requires Valid() && position == 0
      modifies this
      ensures r == TokenStream(input)
    {
      var tokens: seq<Token> := [];
      var first := GetNextToken();
      if first.Err? {
        return Err(first.msg);
      }
      var token := first.value;
      assert TokenStream(input) == Continue(input, token, position);
      PrependNothing(Continue(input, token, position));
      while token.kind != EOF
        invariant Valid()
        invariant token.kind != EOF ==> position <= |input|
        invariant TokenStream(input) == Prepend(tokens, Continue(input, token, position))
        decreases if token.kind == EOF then 0 else |input| + 1 - position
      {
        ghost var before := position;
        tokens := tokens + [token];
        var next := GetNextToken();
        assert Continue(input, token, before) == Prepend([token], TokenizeFrom(input, before));
        if next.Err? {
          assert TokenizeFrom(input, before) == Err(next.msg);
          return Err(next.msg);
        }
        assert TokenizeFrom(input, before) == Continue(input, next.value, position);
        PrependTwice(tokens[..|tokens| - 1], [token], Continue(input, next.value, position));
        assert tokens[..|tokens| - 1] + [token] == tokens;
        token := next.value;
      }
      r := Ok(tokens + [token]);
    }
  }

  lemma PrependNothing(r: Result<seq<Token>>)
    ensures Prepend([], r) == r
  {
    if r.Ok? {
      assert [] + r.value == r.value;
    }
  }

  lemma PrependTwice(a: seq<Token>, b: seq<Token>, r: Result<seq<Token>>)
    ensures Prepend(a, Prepend(b, r)) == Prepend(a + b, r)
  {
    if r.Ok? {
      assert a + (b + r.value) == (a + b) + r.value;
    }
  }
}
