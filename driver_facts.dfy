/*
 * What `compile` promises as a whole: the result of every call is one of
 * the shapes `Reported` describes (a failure names the phase its message
 * points at and carries the products of the phases that finished; a
 * success carries all four products and counts them), an empty source
 * compiles to a program with only `main:`, and the phase guessed for each
 * kind of error the phases throw.
 */
module DriverFacts {
  import opened Util
  import opened Lexer
  import opened Ast
  import G = Grammar
  import GrammarFacts
  import opened Symbols
  import Analysis
  import CodeGen
  import CodegenFacts
  import opened Driver

  // ---------------------------------------------------------------------
  // Words in messages
  // ---------------------------------------------------------------------

  /** No character of `s`, once lower-cased, is `c`. */
  ghost predicate Avoids(s: string, c: char)
  {
    forall i | 0 <= i < |s| :: LowerChar(s[i]) != c
  }

  /** A text that lacks one letter of `w` does not mention `w`. */
  lemma LacksLetter(s: string, w: string, k: nat)
    requires k < |w| && Avoids(s, w[k])
    ensures !Mentions(s, w)
  {
    forall i
      ensures !OccursAt(ToLower(s), w, i)
    {
      if 0 <= i && i + |w| <= |s| {
        assert ToLower(s)[i..i + |w|][k] != w[k];
      }
    }
  }

  /** A text in which the letters `w[k]`, `w[k + 1]` never stand side by side does not mention `w`. */
  lemma LacksPair(s: string, w: string, k: nat)
    requires k + 1 < |w|
    requires forall i | 0 <= i < |s| - 1 :: !(LowerChar(s[i]) == w[k] && LowerChar(s[i + 1]) == w[k + 1])
    ensures !Mentions(s, w)
  {
    forall i
      ensures !OccursAt(ToLower(s), w, i)
    {
      if 0 <= i && i + |w| <= |s| {
        var t := ToLower(s)[i..i + |w|];
        assert t[k] == LowerChar(s[i + k]) && t[k + 1] == LowerChar(s[i + k + 1]);
      }
    }
  }

  /** A text that starts with `w`, its first letter in either case, mentions `w`. */
  lemma MentionsLead(s: string, w: string)
    requires 0 < |w| <= |s| && LowerChar(s[0]) == w[0]
    requires forall i | 1 <= i < |w| :: s[i] == w[i] && !('A' <= w[i] <= 'Z') && w[i] != '\U{212A}'
    ensures Mentions(s, w)
  {
    assert ToLower(s)[0..|w|] == w;
    assert OccursAt(ToLower(s), w, 0);
  }

  lemma AvoidsConcat(a: string, b: string, c: char)
    requires Avoids(a, c) && Avoids(b, c)
    ensures Avoids(a + b, c)
  {
    forall i | 0 <= i < |a + b|
      ensures LowerChar((a + b)[i]) != c
    {
      if i >= |a| {
        assert (a + b)[i] == b[i - |a|];
      }
    }
  }

  /** The decimal text of an integer holds digits and a minus sign: no letter. */
  lemma NumberAvoids(n: int, c: char)
    requires 'a' <= c <= 'z'
    ensures Avoids(IntToString(n), c)
  {
    if n < 0 {
      AvoidsConcat("-", NatToString(-n), c);
    }
  }

  /** A position `line:column` holds no letter. */
  lemma PositionAvoids(input: string, q: nat, c: char)
    requires 'a' <= c <= 'z'
    ensures Avoids(Position(input, q), c)
  {
    var (line, column) := LineCol(input, q);
    NumberAvoids(line, c);
    NumberAvoids(column, c);
    AvoidsConcat(IntToString(line), ":", c);
    AvoidsConcat(IntToString(line) + ":", IntToString(column), c);
  }

  /** A message of the form `text` + position lacks every letter `text` lacks. */
  lemma MessageAvoids(text: string, input: string, q: nat, c: char)
    requires 'a' <= c <= 'z' && Avoids(text, c)
    ensures Avoids(text + Position(input, q), c)
  {
    PositionAvoids(input, q, c);
    AvoidsConcat(text, Position(input, q), c);
  }

  /** Likewise for a pair of letters, when `text` does not end with the first of them. */
  lemma MessageLacksPair(text: string, input: string, q: nat, a: char, b: char)
    requires 'a' <= a <= 'z'
    requires forall i | 0 <= i < |text| - 1 :: !(LowerChar(text[i]) == a && LowerChar(text[i + 1]) == b)
    requires 0 < |text| && LowerChar(text[|text| - 1]) != a
    ensures var s := text + Position(input, q);
      forall i | 0 <= i < |s| - 1 :: !(LowerChar(s[i]) == a && LowerChar(s[i + 1]) == b)
  {
    var p := Position(input, q);
    PositionAvoids(input, q, a);
    var s := text + p;
    forall i | 0 <= i < |s| - 1
      ensures !(LowerChar(s[i]) == a && LowerChar(s[i + 1]) == b)
    {
      if i >= |text| {
        assert s[i] == p[i - |text|];
      } else if i == |text| - 1 {
        assert s[i] == text[i];
      } else {
        assert s[i] == text[i] && s[i + 1] == text[i + 1];
      }
    }
  }

  /** A text without `c` in either case (nor the Kelvin sign, for `k`) lacks the letter `c`. */
  lemma AvoidsByCase(s: string, c: char)
    requires 'a' <= c <= 'z'
    requires forall i | 0 <= i < |s| :: s[i] != c && s[i] != (c as int - 32) as char && (c == 'k' ==> s[i] != '\U{212A}')
    ensures Avoids(s, c)
  {
  }

  /**
   * A message that lacks the letters x, o, f and y and the word
   * "register" mentions none of the keywords: its phase is `Unknown`.
   */
  lemma Unclassified(s: string)
    requires Avoids(s, 'x') && Avoids(s, 'o') && Avoids(s, 'f') && Avoids(s, 'y')
    requires !Mentions(s, "register")
    ensures FailurePhase(s) == Unknown
  {
    LacksLetter(s, "unexpected character", 3);
    LacksLetter(s, "invalid token", 9);
    LacksLetter(s, "expected", 1);
    LacksLetter(s, "unexpected token", 3);
    LacksLetter(s, "undefined", 4);
    LacksLetter(s, "already defined", 6);
    LacksLetter(s, "type", 1);
    LacksLetter(s, "code generation", 1);
  }

  // ---------------------------------------------------------------------
  // determineFailurePhase on the errors the phases throw
  // ---------------------------------------------------------------------

  /** An "Unexpected character" error is a lexical one. */
  lemma UnexpectedCharacterIsLexical(input: string, q: nat)
    requires q < |input|
    ensures FailurePhase(UnexpectedChar(input, q)) == LexicalAnalysis
  {
    var lead := "Unexpected character '";
    MentionsLead(lead, "unexpected character");
    MentionsConcat(lead, [input[q]], "unexpected character");
    MentionsConcat(lead + [input[q]], "' at line ", "unexpected character");
    MentionsConcat(lead + [input[q]] + "' at line ", Position(input, q), "unexpected character");
  }

  lemma CharTextLacksXO()
    ensures var t := "Unterminated character literal at line ";
      forall i | 0 <= i < |t| :: t[i] != 'x' && t[i] != 'X' && t[i] != 'o' && t[i] != 'O'
  {
  }

  lemma CharTextLacksFYG()
    ensures var t := "Unterminated character literal at line ";
      forall i | 0 <= i < |t| :: t[i] != 'f' && t[i] != 'F' && t[i] != 'y' && t[i] != 'Y' && t[i] != 'g' && t[i] != 'G'
  {
  }

  lemma StringTextLacksXO()
    ensures var t := "Unterminated string literal at line ";
      forall i | 0 <= i < |t| :: t[i] != 'x' && t[i] != 'X' && t[i] != 'o' && t[i] != 'O'
  {
  }

  lemma StringTextLacksFY()
    ensures var t := "Unterminated string literal at line ";
      forall i | 0 <= i < |t| :: t[i] != 'f' && t[i] != 'F' && t[i] != 'y' && t[i] != 'Y'
  {
  }

  /** The only g of the text is the last letter of "string", followed by a space. */
  lemma StringTextLacksGI()
    ensures var t := "Unterminated string literal at line ";
      forall i | 0 <= i < |t| - 1 :: !(LowerChar(t[i]) == 'g' && LowerChar(t[i + 1]) == 'i')
  {
  }

  /**
   * An unterminated character literal is a tokenizer error, but its message
   * contains none of the keywords, so its phase is `Unknown`.
   */
  lemma UnterminatedCharIsUnknown(input: string, q: nat)
    ensures FailurePhase(UnterminatedChar(input, q)) == Unknown
  {
    var text := "Unterminated character literal at line ";
    CharTextLacksXO();
    CharTextLacksFYG();
    AvoidsByCase(text, 'x');
    AvoidsByCase(text, 'o');
    AvoidsByCase(text, 'f');
    AvoidsByCase(text, 'y');
    AvoidsByCase(text, 'g');
    MessageAvoids(text, input, q, 'x');
    MessageAvoids(text, input, q, 'o');
    MessageAvoids(text, input, q, 'f');
    MessageAvoids(text, input, q, 'y');
    MessageAvoids(text, input, q, 'g');
    LacksLetter(text + Position(input, q), "register", 2);
    Unclassified(text + Position(input, q));
  }

  /** The same holds of an unterminated string literal. */
  lemma UnterminatedStringIsUnknown(input: string, q: nat)
    ensures FailurePhase(UnterminatedString(input, q)) == Unknown
  {
    var text := "Unterminated string literal at line ";
    StringTextLacksXO();
    StringTextLacksFY();
    StringTextLacksGI();
    AvoidsByCase(text, 'x');
    AvoidsByCase(text, 'o');
    AvoidsByCase(text, 'f');
    AvoidsByCase(text, 'y');
    MessageAvoids(text, input, q, 'x');
    MessageAvoids(text, input, q, 'o');
    MessageAvoids(text, input, q, 'f');
    MessageAvoids(text, input, q, 'y');
    MessageLacksPair(text, input, q, 'g', 'i');
    LacksPair(text + Position(input, q), "register", 2);
    Unclassified(text + Position(input, q));
  }

  /** The three errors the tokenizer throws, each about a position of the input. */
  ghost predicate TokenizerError(input: string, msg: string)
  {
    exists q | 0 <= q < |input| ::
      msg == UnexpectedChar(input, q) || msg == UnterminatedChar(input, q) || msg == UnterminatedString(input, q)
  }

  lemma LexAtErrors(input: string, q: nat)
    requires q < |input| && LexAt(input, q).Err?
    ensures TokenizerError(input, LexAt(input, q).msg)
  {
    var c := input[q];
    var m := LexAt(input, q).msg;
    if c == '\'' {
      assert m == UnterminatedChar(input, q);
    } else if c == '"' {
      assert m == UnterminatedString(input, q);
    } else {
      OperatorLongestMatch(input, q);
      assert m == UnexpectedChar(input, q);
    }
  }

  /** Every error of `tokenize` is one of the three. */
  lemma {:induction false} TokenizeErrors(input: string, p: nat)
    requires TokenizeFrom(input, p).Err?
    ensures TokenizerError(input, TokenizeFrom(input, p).msg)
    decreases |input| - p
  {
    match NextToken(input, p)
    case Err(m) =>
      LexAtErrors(input, SkipTrivia(input, p));
    case Ok((t, q)) =>
      TokenizeErrors(input, q);
  }

  /**
   * A tokenizer failure is put down to "Lexical Analysis" when it is an
   * unexpected character, and to "Unknown" when it is an unterminated
   * literal: never to a later phase.
   */
  lemma TokenizerFailurePhase(input: string)
    requires TokenStream(input).Err?
    ensures var m := TokenStream(input).msg;
      FailurePhase(m) == LexicalAnalysis || FailurePhase(m) == Unknown
  {
    TokenizeErrors(input, 0);
    var q :| 0 <= q < |input| && (TokenStream(input).msg == UnexpectedChar(input, q) ||
      TokenStream(input).msg == UnterminatedChar(input, q) || TokenStream(input).msg == UnterminatedString(input, q));
    if TokenStream(input).msg == UnexpectedChar(input, q) {
      UnexpectedCharacterIsLexical(input, q);
    } else if TokenStream(input).msg == UnterminatedChar(input, q) {
      UnterminatedCharIsUnknown(input, q);
    } else {
      UnterminatedStringIsUnknown(input, q);
    }
  }

  /**
   * Every parser message mentions "expected", so a parse failure is put
   * down to "Syntax Analysis", or to "Lexical Analysis" when the message
   * (which quotes the offending token) also names a lexical keyword.
   */
  lemma ParseFailurePhase(toks: seq<Token>)
    requires G.EndsWithEof(toks) && G.ParseProgram(toks).Err?
    ensures var m := G.ParseProgram(toks).msg;
      FailurePhase(m) == (if Mentions(m, "unexpected character") || Mentions(m, "invalid token")
                          then LexicalAnalysis else SyntaxAnalysis)
  {
  }

  /**
   * `toLowerCase` turns the Kelvin sign into the letter k, so a message
   * that quotes a token spelling "invalid to\u212Aen" (as a parse error
   * quotes the offending token) is put down to "Lexical Analysis".
   */
  lemma KelvinSignSpellsToken(before: string, after: string)
    ensures FailurePhase(before + ("invalid to" + "\U{212A}" + "en") + after) == LexicalAnalysis
  {
    var w := "invalid to" + "\U{212A}" + "en";
    KelvinSignLowered("invalid to", "en");
    assert OccursAt("invalid to" + "k" + "en", "invalid token", 0);
    MentionsConcat(before, w, "invalid token");
    MentionsConcat(before + w, after, "invalid token");
  }

  lemma UndefinedTextLacksXK()
    ensures var t := "Undefined variable '";
      forall i | 0 <= i < |t| :: t[i] != 'x' && t[i] != 'X' && t[i] != 'k' && t[i] != 'K'
  {
  }

  lemma UndefinedTextLacksHK()
    ensures var t := "Undefined variable '";
      forall i | 0 <= i < |t| :: t[i] != 'h' && t[i] != 'H' && t[i] != 'k' && t[i] != 'K' && t[i] != '\U{212A}'
  {
  }

  /** The message around a name lacks x, h and k. */
  lemma UndefinedTextLacks()
    ensures Avoids("Undefined variable '", 'x') && Avoids("Undefined variable '", 'h') &&
            Avoids("Undefined variable '", 'k')
    ensures Avoids("'", 'x') && Avoids("'", 'h') && Avoids("'", 'k')
  {
    UndefinedTextLacksXK();
    UndefinedTextLacksHK();
    AvoidsByCase("Undefined variable '", 'x');
    AvoidsByCase("Undefined variable '", 'h');
    AvoidsByCase("Undefined variable '", 'k');
  }

  /** The message about `name` lacks a letter that `name` lacks, among x, h and k. */
  lemma UndefinedAvoids(name: string, c: char)
    requires (c == 'x' || c == 'h' || c == 'k') && Avoids(name, c)
    ensures Avoids(UndefinedVariable(name), c)
  {
    UndefinedTextLacks();
    AvoidsConcat("Undefined variable '", name, c);
    AvoidsConcat("Undefined variable '" + name, "'", c);
  }

  lemma MentionsUndefined(name: string)
    ensures Mentions(UndefinedVariable(name), "undefined")
  {
    var lead := "Undefined variable '";
    MentionsLead(lead, "undefined");
    MentionsConcat(lead, name, "undefined");
    MentionsConcat(lead + name, "'", "undefined");
  }

  /**
   * "Undefined variable" is never put down to "Code Generation" or
   * "Unknown"; it is "Semantic Analysis" unless the variable's name
   * itself holds an x or a k, which could spell one of the earlier
   * keywords.
   */
  lemma UndefinedPhase(name: string)
    ensures var p := FailurePhase(UndefinedVariable(name));
      p == LexicalAnalysis || p == SyntaxAnalysis || p == SemanticAnalysis
    ensures Avoids(name, 'x') && Avoids(name, 'k') ==> FailurePhase(UndefinedVariable(name)) == SemanticAnalysis
  {
    MentionsUndefined(name);
    if Avoids(name, 'x') && Avoids(name, 'k') {
      var m := UndefinedVariable(name);
      UndefinedAvoids(name, 'x');
      UndefinedAvoids(name, 'k');
      LacksLetter(m, "unexpected character", 3);
      LacksLetter(m, "invalid token", 10);
      LacksLetter(m, "expected", 1);
      LacksLetter(m, "unexpected token", 3);
    }
  }

  lemma ExpectedLacksHK()
    ensures Avoids("expected", 'h') && Avoids("expected", 'k')
  {
    AvoidsByCase("expected", 'h');
    AvoidsByCase("expected", 'k');
  }

  /** The order of the checks decides: a variable named `expected` makes a syntax error of a semantic one. */
  lemma UndefinedExpectedIsSyntax()
    ensures FailurePhase(UndefinedVariable("expected")) == SyntaxAnalysis
  {
    var m := UndefinedVariable("expected");
    MentionsAt("expected", 0);
    MentionsConcat("Undefined variable '", "expected", "expected");
    MentionsConcat("Undefined variable '" + "expected", "'", "expected");
    ExpectedLacksHK();
    UndefinedAvoids("expected", 'h');
    UndefinedAvoids("expected", 'k');
    NotLexical(m);
  }

  /** A text without h and k names neither lexical keyword. */
  lemma NotLexical(s: string)
    requires Avoids(s, 'h') && Avoids(s, 'k')
    ensures !Mentions(s, "unexpected character") && !Mentions(s, "invalid token")
  {
    LacksLetter(s, "unexpected character", 12);
    LacksLetter(s, "invalid token", 10);
  }

  /** A failure of the analyzer is never put down to "Code Generation" or "Unknown". */
  lemma AnalysisFailurePhase(p: Program)
    requires Analysis.DeclarationsOnly(p.declarations) && Analysis.AnalyzeProgram(Analysis.InitialState(), p).Err?
    ensures var phase := FailurePhase(Analysis.AnalyzeProgram(Analysis.InitialState(), p).msg);
      phase == LexicalAnalysis || phase == SyntaxAnalysis || phase == SemanticAnalysis
  {
    var name :| Analysis.AnalyzeProgram(Analysis.InitialState(), p).msg == UndefinedVariable(name);
    UndefinedPhase(name);
  }

  /**
   * The generator's only error is a variable missing from the table, so a
   * failure in code generation is put down to an earlier phase, never to
   * "Code Generation".
   */
  lemma GenerationFailurePhase(t: Table, prog: Program)
    requires t.Valid() && CodeGen.Generate(t, prog).Err?
    ensures var phase := FailurePhase(CodeGen.Generate(t, prog).msg);
      phase == LexicalAnalysis || phase == SyntaxAnalysis || phase == SemanticAnalysis
  {
    var name :| name !in t.variables && CodeGen.Generate(t, prog).msg == UndefinedVariable(name);
    UndefinedPhase(name);
  }

  // ---------------------------------------------------------------------
  // compile: the phases in order
  // ---------------------------------------------------------------------

  /**
   * A result once the analyzer returned `table` and `warnings` for `ast`:
   * the generator's error as a failure that keeps the tree, the table and
   * the warnings, or the generated code as a success whose statistics
   * count the distinct function names, the distinct variable names
   * (globals, parameters and locals together) and the warnings.
   */
  ghost predicate Generated(r: CompileResult, ast: Program, table: Table, warnings: seq<string>)
    requires table.Valid()
  {
    r.warnings == warnings &&
    match CodeGen.Generate(table, ast)
    case Err(m) => r.Failed? && r.error == m && r.astSoFar == Some(ast) && r.tableSoFar == Some(table)
    case Ok(code) =>
      r.Compiled? && r.mipsCode == code && r.ast == ast && r.symbolTable == table &&
      r.stats == CompileStats(|r.tokens|, |Analysis.FunctionNames(ast.functions)|, |Analysis.ProgramDeclared(ast)|,
                              CodeLines(table, ast), |warnings|)
  }

  /** A result once the parser returned `ast`: the analyzer's error, keeping the tree only, or what follows it. */
  ghost predicate Analyzed(r: CompileResult, ast: Program)
    requires Analysis.DeclarationsOnly(ast.declarations)
  {
    match Analysis.AnalyzeProgram(Analysis.InitialState(), ast)
    case Err(m) =>
      r.Failed? && r.error == m && r.astSoFar == Some(ast) && r.tableSoFar.None? && r.warnings == []
    case Ok(st) => st.table.Valid() && Generated(r, ast, st.table, st.warnings)
  }

  /**
   * A result of `compile` once the tokenizer returned `tokens`: it keeps
   * the tokens, and it is the parser's error, keeping nothing else, or
   * what follows it.  A failure has no code and is classified by its
   * message.
   */
  ghost predicate Reported(tokens: seq<Token>, r: CompileResult)
  {
    r.tokens == tokens && G.EndsWithEof(tokens) &&
    (r.Failed? ==> r.mipsCode == "" && r.phase == FailurePhase(r.error)) &&
    match G.ParseProgram(tokens)
    case Err(m) => r.Failed? && r.error == m && r.astSoFar.None? && r.tableSoFar.None? && r.warnings == []
    case Ok(ast) => Analysis.DeclarationsOnly(ast.declarations) && Analyzed(r, ast)
  }

  lemma GenerationReported(tokens: seq<Token>, ast: Program, table: Table, warnings: seq<string>)
    requires Analysis.DeclarationsOnly(ast.declarations)
    requires Analysis.AnalyzeProgram(Analysis.InitialState(), ast) == Ok(Analysis.AState(table, warnings))
    requires table.Valid()
    ensures var r := AfterAnalysis(tokens, ast, table, warnings);
      r.tokens == tokens && (r.Failed? ==> r.mipsCode == "" && r.phase == FailurePhase(r.error)) &&
      Generated(r, ast, table, warnings)
  {
    Analysis.ProgramEffect(ast);
    assert |table.functions| == |table.functions.Keys|;
    assert |table.variables| == |table.variables.Keys|;
  }

  lemma AnalysisReported(tokens: seq<Token>, ast: Program)
    requires Analysis.DeclarationsOnly(ast.declarations)
    ensures var r := AfterParsing(tokens, ast);
      r.tokens == tokens && (r.Failed? ==> r.mipsCode == "" && r.phase == FailurePhase(r.error)) && Analyzed(r, ast)
  {
    match Analysis.AnalyzeProgram(Analysis.InitialState(), ast)
    case Err(m) =>
    case Ok(st) =>
      Analysis.ProgramEffect(ast);
      GenerationReported(tokens, ast, st.table, st.warnings);
  }

  lemma ParsingReported(tokens: seq<Token>)
    requires G.EndsWithEof(tokens)
    ensures Reported(tokens, AfterLexing(tokens))
  {
    match G.ParseProgram(tokens)
    case Err(m) =>
    case Ok(ast) =>
      GrammarFacts.ProgramDeclarations(tokens);
      AnalysisReported(tokens, ast);
  }

  /**
   * `compile` runs the phases in order and stops at the first that
   * throws: a tokenizer error gives a failure with no tokens, tree or
   * table; otherwise the result holds the tokens and is `Reported`.
   */
  lemma CompileReports(source: string)
    ensures var r := Compilation(source);
      match TokenStream(source)
      case Err(m) => r == Failed(m, FailurePhase(m), "", None, None, [], [])
      case Ok(tokens) => Reported(tokens, r)
  {
    match TokenStream(source)
    case Err(m) =>
    case Ok(tokens) =>
      LexedEndsWithEof(source);
      ParsingReported(tokens);
  }

  /** After tokenizing, a failure is put down to one of the first three phases. */
  lemma ReportedPhase(tokens: seq<Token>, r: CompileResult)
    requires Reported(tokens, r) && r.Failed?
    ensures r.phase == LexicalAnalysis || r.phase == SyntaxAnalysis || r.phase == SemanticAnalysis
  {
    match G.ParseProgram(tokens)
    case Err(m) =>
      ParseFailurePhase(tokens);
    case Ok(ast) =>
      match Analysis.AnalyzeProgram(Analysis.InitialState(), ast)
      case Err(m) =>
        AnalysisFailurePhase(ast);
      case Ok(st) =>
        GenerationFailurePhase(st.table, ast);
  }

  /**
   * `determineFailurePhase` never answers "Code Generation": no phase
   * throws a message with "code generation" or "register" in it before an
   * earlier keyword, and only the tokenizer's unterminated literals are
   * "Unknown".
   */
  lemma NeverCodeGeneration(source: string)
    requires Compilation(source).Failed?
    ensures Compilation(source).phase != CodeGeneration
    ensures Compilation(source).phase == Unknown ==> TokenStream(source).Err?
  {
    CompileReports(source);
    match TokenStream(source)
    case Err(m) =>
      TokenizerFailurePhase(source);
    case Ok(tokens) =>
      ReportedPhase(tokens, Compilation(source));
  }

  // ---------------------------------------------------------------------
  // The empty source
  // ---------------------------------------------------------------------

  /** The empty program is analyzed without error into the empty table and no warnings. */
  lemma EmptyProgramAnalyzed()
    ensures Analysis.DeclarationsOnly([])
    ensures Analysis.AnalyzeProgram(Analysis.InitialState(), Program([], [], [])) == Ok(Analysis.InitialState())
  {
  }

  /** Phases three and four on the empty program: a success whose code has only `main:` and the exit. */
  lemma EmptyProgramCompiles(tokens: seq<Token>)
    ensures Analysis.DeclarationsOnly([])
    ensures var r := AfterParsing(tokens, Program([], [], []));
      r.Compiled? && r.symbolTable == EmptyTable() && r.warnings == [] &&
      r.mipsCode == CodeGen.Assemble(CodeGen.DataSection(EmptyTable()),
                                     CodeGen.TextHeader + ["main:"] + CodeGen.ProgramExit)
  {
    EmptyProgramAnalyzed();
    CodegenFacts.EmptyProgram(EmptyTable());
  }

  /**
   * An empty source compiles: its one token is `EOF`, the tree and the
   * table are empty, there are no warnings, the code is the data section
   * and a text section holding only `main:` and the exit call, and the
   * statistics count one token and nothing else.
   */
  lemma EmptySourceCompiles()
    ensures var r := Compilation("");
      r.Compiled? && r.tokens == [Token(EOF, "", 1, 1)] && r.ast == Program([], [], []) &&
      r.symbolTable == EmptyTable() && r.warnings == [] &&
      r.mipsCode == CodeGen.Assemble(CodeGen.DataSection(EmptyTable()),
                                     CodeGen.TextHeader + ["main:"] + CodeGen.ProgramExit) &&
      r.stats.tokens == 1 && r.stats.functions == 0 && r.stats.variables == 0 && r.stats.warnings == 0
  {
    var eof := Token(EOF, "", 1, 1);
    TokenizeEmpty();
    GrammarFacts.EmptyTokenList(eof);
    EmptyProgramCompiles([eof]);
  }
}
