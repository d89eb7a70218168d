/*
 * The compiler driver: tokenize, parse, analyze, generate, in that order.
 * The first phase that throws ends the compilation; its message becomes a
 * failure result that carries whatever the earlier phases produced, and the
 * phase is guessed from keywords in the message.
 *
 * `Compilation` is the whole pipeline as a function of the source text; the
 * class `Compiler` runs the phase objects one after the other, keeping
 * their products in its fields as the source does, and is proved to return
 * what `Compilation` says.
 */
module Driver {
  import opened Util
  import opened Lexer
  import opened Ast
  import G = Grammar
  import GrammarFacts
  import opened Symbols
  import Analysis
  import CodeGen
  import Parsing
  import Analyzer
  import Generator

  /** The `stats` object of a successful compilation. */
  datatype CompileStats = CompileStats(tokens: nat, functions: nat, variables: nat, codeLines: nat, warnings: nat)

  /** The phase `determineFailurePhase` names. */
  datatype Phase = LexicalAnalysis | SyntaxAnalysis | SemanticAnalysis | CodeGeneration | Unknown
  {
    function Name(): string
    {
      match this
      case LexicalAnalysis => "Lexical Analysis"
      case SyntaxAnalysis => "Syntax Analysis"
      case SemanticAnalysis => "Semantic Analysis"
      case CodeGeneration => "Code Generation"
      case Unknown => "Unknown"
    }
  }

  /**
   * The object `compile` returns.  A failure's `stats` is the empty object
   * the reset left, so it has no field here; its `ast` and `symbolTable`
   * are null until the phase producing them has finished.
   */
  datatype CompileResult =
    | Compiled(mipsCode: string, ast: Program, symbolTable: Table, tokens: seq<Token>, warnings: seq<string>,
               stats: CompileStats)
    | Failed(error: string, phase: Phase, mipsCode: string, astSoFar: Option<Program>, tableSoFar: Option<Table>,
             tokens: seq<Token>, warnings: seq<string>)

  function NoTokens(): string
  {
    "No tokens generated - " + "empty source code"
  }

  // ---------------------------------------------------------------------
  // determineFailurePhase
  // ---------------------------------------------------------------------

  /** `determineFailurePhase`: the first group of keywords the lower-cased message contains. */
  function FailurePhase(message: string): Phase
  {
    if Mentions(message, "unexpected character") || Mentions(message, "invalid token") then LexicalAnalysis
    else if Mentions(message, "expected") || Mentions(message, "unexpected token") then SyntaxAnalysis
    else if Mentions(message, "undefined") || Mentions(message, "already defined") || Mentions(message, "type") then
      SemanticAnalysis
    else if Mentions(message, "code generation") || Mentions(message, "register") then CodeGeneration
    else Unknown
  }

  // ---------------------------------------------------------------------
  // compile, phase by phase
  // ---------------------------------------------------------------------

  /** The failure object, with the products of the phases that finished. */
  function Failure(message: string, tokens: seq<Token>, ast: Option<Program>, table: Option<Table>,
                   warnings: seq<string>): CompileResult
  {
    Failed(message, FailurePhase(message), "", ast, table, tokens, warnings)
  }

  /** What `compile` returns for the source text: the four phases in order. */
  function Compilation(source: string): CompileResult
  {
    match TokenStream(source)
    case Err(m) => Failure(m, [], None, None, [])
    case Ok(tokens) =>
      LexedEndsWithEof(source);
      FromTokens(tokens)
  }

  /** Phase one returned `tokens`: the check for an empty list, then phases two to four. */
  function FromTokens(tokens: seq<Token>): CompileResult
    requires |tokens| == 0 || G.EndsWithEof(tokens)
  {
    if |tokens| == 0 then Failure(NoTokens(), tokens, None, None, []) else AfterLexing(tokens)
  }

  /** The parser's requirement holds of every token list the tokenizer returns. */
  lemma LexedEndsWithEof(source: string)
    requires TokenStream(source).Ok?
    ensures G.EndsWithEof(TokenStream(source).value)
  {
    TokenizeEndsWithSingleEof(source);
  }

  /** Phases two to four, on a token list that ends with `EOF`. */
  function AfterLexing(tokens: seq<Token>): CompileResult
    requires G.EndsWithEof(tokens)
  {
    match G.ParseProgram(tokens)
    case Err(m) => Failure(m, tokens, None, None, [])
    case Ok(ast) =>
      GrammarFacts.ProgramDeclarations(tokens);
      AfterParsing(tokens, ast)
  }

  /** Phases three and four, on a parsed program. */
  function AfterParsing(tokens: seq<Token>, ast: Program): CompileResult
    requires Analysis.DeclarationsOnly(ast.declarations)
  {
    match Analysis.AnalyzeProgram(Analysis.InitialState(), ast)
    case Err(m) => Failure(m, tokens, Some(ast), None, [])
    case Ok(st) =>
      Analysis.ProgramEffect(ast);
      AfterAnalysis(tokens, ast, st.table, st.warnings)
  }

  /** Phase four, and the statistics of a success. */
  function AfterAnalysis(tokens: seq<Token>, ast: Program, table: Table, warnings: seq<string>): CompileResult
    requires table.Valid()
  {
    match CodeGen.Generate(table, ast)
    case Err(m) => Failure(m, tokens, Some(ast), Some(table), warnings)
    case Ok(code) =>
      Compiled(code, ast, table, tokens, warnings,
               CompileStats(|tokens|, |table.functions|, |table.variables|, CodeLines(table, ast), |warnings|))
  }

  /** `getStats().totalLines` of the generator after a successful `generate`: the data and text lines. */
  function CodeLines(table: Table, ast: Program): nat
    requires table.Valid() && CodeGen.Generate(table, ast).Ok?
  {
    |CodeGen.DataSection(table)| + |CodeGen.TextSection(table, ast, CodeGen.Start).value.text|
  }

  // ---------------------------------------------------------------------
  // The Compiler object
  // ---------------------------------------------------------------------

  class Compiler {
    var sourceCode: string
    var tokens: seq<Token>
    var ast: Option<Program>
    var symbolTable: Option<Table>
    var mipsCode: string
    var errors: seq<string>
    var warnings: seq<string>
    var stats: Option<CompileStats>

    /** The fields hold what the result reports; `stats` is set only by a success. */
    ghost predicate Holds(r: CompileResult)
      reads this
    {
      tokens == r.tokens && warnings == r.warnings && mipsCode == r.mipsCode && errors == [] &&
      match r
      case Compiled(_, p, t, _, _, s) => ast == Some(p) && symbolTable == Some(t) && stats == Some(s)
      case Failed(_, _, _, p, t, _, _) => ast == p && symbolTable == t && stats == None
    }

    constructor()
      ensures sourceCode == "" && tokens == [] && ast == None && symbolTable == None
      ensures mipsCode == "" && errors == [] && warnings == [] && stats == None
    {
      sourceCode := "";
      tokens := [];
      ast := None;
      symbolTable := None;
      mipsCode := "";
      errors := [];
      warnings := [];
      stats := None;
    }

    /**
     * `compile`: every field is reset first, so the result depends on the
     * source alone, whatever an earlier call left behind.
     */
    method Compile(source: string) returns (r: CompileResult)
      modifies this
      ensures r == Compilation(source)
      ensures sourceCode == source && Holds(r)
    {
      Reset(source);
      var lexed := Lex(source);
      if lexed.Err? {
        r := Fail(lexed.msg);
      } else {
        LexedEndsWithEof(source);
        r := Lexed(lexed.value);
      }
    }

    /** The reset at the start of `compile`. */
    method Reset(source: string)
      modifies this
      ensures sourceCode == source && tokens == [] && ast == None && symbolTable == None
      ensures mipsCode == "" && errors == [] && warnings == [] && stats == None
    {
      sourceCode := source;
      errors := [];
      warnings := [];
      tokens := [];
      ast := None;
      symbolTable := None;
      mipsCode := "";
      stats := None;
    }

    /** Phase one succeeded with `lexed`: the empty-list check, then phase two onwards. */
    method Lexed(lexed: seq<Token>) returns (r: CompileResult)
      requires |lexed| == 0 || G.EndsWithEof(lexed)
      requires tokens == [] && errors == [] && warnings == [] && ast == None && symbolTable == None
      requires mipsCode == "" && stats == None
      modifies this
      ensures r == FromTokens(lexed) && Holds(r) && sourceCode == old(sourceCode)
    {
      tokens := lexed;
      if |tokens| == 0 {
        r := Fail(NoTokens());
        return;
      }
      r := Parse();
    }

    /** Phase two onwards, the token list in place. */
    method Parse() returns (r: CompileResult)
      requires G.EndsWithEof(tokens) && errors == [] && warnings == [] && ast == None && symbolTable == None
      requires mipsCode == "" && stats == None
      modifies this
      ensures r == AfterLexing(old(tokens)) && Holds(r) && sourceCode == old(sourceCode)
    {
      var parsed := ParseTokens(tokens);
      if parsed.Err? {
        r := Fail(parsed.msg);
        return;
      }
      ast := Some(parsed.value);
      GrammarFacts.ProgramDeclarations(tokens);
      r := Analyze(parsed.value);
    }

    /** Phase three onwards, the program in place. */
    method Analyze(program: Program) returns (r: CompileResult)
      requires Analysis.DeclarationsOnly(program.declarations) && ast == Some(program)
      requires errors == [] && warnings == [] && symbolTable == None && mipsCode == "" && stats == None
      modifies this
      ensures r == AfterParsing(old(tokens), program) && Holds(r) && sourceCode == old(sourceCode)
    {
      var analyzed := AnalyzeTree(program);
      if analyzed.Err? {
        r := Fail(analyzed.msg);
        return;
      }
      symbolTable := Some(analyzed.value.table);
      warnings := analyzed.value.warnings;
      Analysis.ProgramEffect(program);
      r := Generate(program, analyzed.value.table);
    }

    /** Phase four and the statistics, the program and its table in place. */
    method Generate(program: Program, table: Table) returns (r: CompileResult)
      requires table.Valid() && ast == Some(program) && symbolTable == Some(table)
      requires errors == [] && mipsCode == "" && stats == None
      modifies this
      ensures r == AfterAnalysis(old(tokens), program, table, old(warnings)) && Holds(r)
      ensures sourceCode == old(sourceCode)
    {
      var generated, totalLines := GenerateCode(program, table);
      if generated.Err? {
        r := Fail(generated.msg);
        return;
      }
      mipsCode := generated.value;
      stats := Some(CompileStats(|tokens|, |table.functions|, |table.variables|, totalLines, |warnings|));
      r := Compiled(mipsCode, program, table, tokens, warnings, stats.value);
    }

    /** The `catch` block: the message, its phase, and the fields as they stand. */
    method Fail(message: string) returns (r: CompileResult)
      requires mipsCode == "" && stats == None && errors == []
      ensures r == Failure(message, tokens, ast, symbolTable, warnings) && Holds(r)
    {
      r := Failed(message, FailurePhase(message), mipsCode, ast, symbolTable, tokens, warnings);
    }
  }

  // ---------------------------------------------------------------------
  // The phase objects, each new for one compilation
  // ---------------------------------------------------------------------

  /** Phase one: `new Tokenizer(sourceCode).tokenize()`. */
  method Lex(source: string) returns (lexed: Result<seq<Token>>)
    ensures lexed == TokenStream(source)
  {
    var lexer := new Tokenizer(source);
    lexed := lexer.Tokenize();
  }

  /** Phase two: `new Parser(tokens).parse()`. */
  method ParseTokens(tokens: seq<Token>) returns (parsed: Result<Program>)
    requires G.EndsWithEof(tokens)
    ensures parsed == G.ParseProgram(tokens)
  {
    var parser := new Parsing.Parser(tokens);
    parsed := parser.Parse();
  }

  /** Phase three: `new SemanticAnalyzer().analyze(ast)`, with the analyzer's table and warnings. */
  method AnalyzeTree(program: Program) returns (analyzed: Result<Analysis.AState>)
    requires Analysis.DeclarationsOnly(program.declarations)
    ensures analyzed == Analysis.AnalyzeProgram(Analysis.InitialState(), program)
  {
    var analyzer := new Analyzer.SemanticAnalyzer();
    var done := analyzer.Analyze(program);
    if done.Err? {
      return Err(done.msg);
    }
    analyzed := Ok(Analysis.AState(analyzer.symbolTable.Value(), analyzer.warnings));
  }

  /** Phase four: `new MIPSGenerator(ast, symbolTable).generate()`, and `getStats().totalLines` afterwards. */
  method GenerateCode(program: Program, table: Table) returns (generated: Result<string>, totalLines: nat)
    requires table.Valid()
    ensures generated == CodeGen.Generate(table, program)
    ensures generated.Ok? ==> totalLines == CodeLines(table, program)
  {
    var generator := new Generator.MIPSGenerator(program, table);
    generated := generator.Generate();
    totalLines := generator.GetStats().totalLines;
  }

  /** `compileToMIPS` and the static `compile`: a new compiler on the source. */
  method CompileToMIPS(source: string) returns (r: CompileResult)
    ensures r == Compilation(source)
  {
    var compiler := new Compiler();
    r := compiler.Compile(source);
  }
}
