# C-to-MIPS compiler and MIPS simulator, modelled in Dafny

This project models the backend of C-to-MIPS-IDE. The backend compiles a small subset of C to MIPS assembly text and runs that assembly on a simulator. Its pieces are:

- **Tokenizer** (`Lexer`, class `Tokenizer`). It turns the source into tokens, each with a line and a column. Comments and blanks are dropped. Keywords, identifiers, decimal and hexadecimal numbers, character and string literals, operators and delimiters become tokens, and the list ends with an `EOF` token.
- **AST and parser** (`Ast`, `Grammar`, `Parsing`, class `Parser`). A recursive-descent parser with one loop per precedence level. It builds programs, function and variable declarations, statements and expressions.
- **Semantic analyzer** (`Symbols`, `Analysis`, `Analyzer`, class `SemanticAnalyzer`). It works over one flat table of variables and one of functions. A redefinition keeps the first entry. A use of an undefined variable is an error, while a call to an undefined function and a statement of unknown type only add warnings.
- **Scoped symbol table** (`ScopedSymbols`, class `ScopedTable`). A stack of scopes with innermost-first lookup. It is a component of its own and the analyzer does not use it.
- **Register allocator** (`Registers`, class `RegisterAllocator`). Round-robin over `$t0`-`$t9` and `$s0`-`$s7`, counting how often each register is handed out.
- **MIPS generator** (`CodeGen`, `Generator`, class `MIPSGenerator`). It emits a `.data` section for globals and a `.text` section. The text section holds `main` first when the program has one, then the other functions, then a stub `main` that only exits when there was none. Top-level statements are generated only when the program has no functions at all; otherwise they are dropped.
- **Simulator** (`Machine`, `Executor`, class `Simulator`). A sparse byte memory, 32 registers with `lo`/`hi`, a label table, the MIPS instructions the generator uses, syscalls that print, read (always 0) and exit, and a ceiling of 10000 executed instructions. It has a run mode and a step mode.
- **Compile driver** (`Driver`, class `Compiler`). It runs the phases in order, collects statistics, and sorts a failure into a phase by the keywords of its message.

Each stateful component is a Dafny class with the source's fields. Its methods are proved equal to a functional specification of the same operation. The properties of the system are lemmas about those specification functions, kept in the `…Facts` modules (`GrammarFacts`, `CodegenFacts`, `OperatorFacts`, `MachineFacts`, `RunFacts`, `DriverFacts`). Errors thrown by the source are `Err` values that carry the source's message. Numbers are JavaScript doubles in the source; here they are integers, with 32-bit wrap-around written out wherever the simulator applies `| 0` or `>>> 0`.

## Model

| member | source | states |
|---|---|---|
| Util.NatToString | backend/src/execution/executor.js:381 | a number's decimal text is non-empty, all digits, and has no leading zero unless the number is 0 |
| Util.IntToString | backend/src/execution/executor.js:381 | the text of a number starts with `-` exactly when the number is negative |
| Util.DigitPrefixLength | backend/src/execution/executor.js:88 | `parseInt` reads the longest run of digits: every character before the cut is a digit and the one at the cut is not |
| Util.TrimStart | backend/src/execution/executor.js:58 | `trim` removes a suffix-preserving prefix of white space and leaves no white space in front |
| Util.TrimEnd | backend/src/execution/executor.js:58 | `trim` keeps a prefix of the line and leaves no white space at its end |
| Util.DigitsValueOfNatToString | backend/src/compiler/codegen/mips_generator.js:453-454 | the decimal digits printed for a number read back as that number |
| Util.ParseIntOfIntToString | backend/src/execution/executor.js:293 | `parseInt` of any printed integer, negative ones included, gives the integer back |
| Util.ParseIntOfNatural | backend/src/execution/executor.js:206 | `parseInt` of a printed natural number gives it back |
| Util.ParseIntOfNegative | backend/src/execution/executor.js:206 | `parseInt` of `-` followed by a printed positive number gives the negative number |
| Util.ParseIntDecimalOfNatural | backend/src/compiler/codegen/mips_generator.js:454 | `parseInt(text, 10)` of a printed natural number gives it back |
| Util.DigitPrefixAll | backend/src/execution/executor.js:88 | a text made only of digits is read to its end |
| Util.Contains | backend/src/compiler/compiler.js:149-158 | `includes` holds exactly when the word occurs at some position |
| Util.ContainsConcat | backend/src/compiler/compiler.js:149-158 | a word found in either part is found in the concatenation |
| Util.ToLower | backend/src/compiler/compiler.js:147 | `toLowerCase` keeps the length and lowers each character on its own: the ASCII capitals and the Kelvin sign, which becomes `k` |
| Util.KelvinSignLowered | backend/src/compiler/compiler.js:147 | the Kelvin sign between two lower-case texts lowers to the ASCII `k` |
| Util.ToLowerConcat | backend/src/compiler/compiler.js:147 | lowering distributes over concatenation |
| Util.MentionsConcat | backend/src/compiler/compiler.js:147-158 | a word mentioned (case-insensitively) in either part is mentioned in the whole message |
| Util.MentionsExpected | backend/src/compiler/compiler.js:152 | every message starting with `Expected`, `Unexpected` or `. Expected` mentions `expected` |
| Util.MentionsAt | backend/src/compiler/compiler.js:152 | `Expected` or `expected` anywhere in a message makes it mention `expected` |
| Util.LowerKeeps | backend/src/compiler/compiler.js:147 | lowering leaves a text without capital letters unchanged |
| Util.Split | backend/src/execution/executor.js:58 | `split` gives at least one piece, at least two when the separator occurs, and no piece contains the separator |
| Util.SplitAfter | backend/src/execution/executor.js:58 | splitting `a + sep + b` gives `a` followed by the pieces of `b` |
| Util.SplitNone | backend/src/execution/executor.js:80 | a text without the separator splits into itself alone |
| Util.ToInt32 | backend/src/execution/executor.js:449 | the conversion `value` or-0 lies in the signed 32-bit range and differs from the value by a multiple of 2^32 |
| Util.ToUint32 | backend/src/execution/executor.js:247 | `value >>> 0` lies in the unsigned 32-bit range and differs from the value by a multiple of 2^32 |
| Util.ToInt32OfInt32 | backend/src/execution/executor.js:449 | the or-0 conversion leaves every signed 32-bit value unchanged |
| Util.BitAnd | backend/src/execution/executor.js:232 | bitwise and gives a signed 32-bit result |
| Util.BitOr | backend/src/execution/executor.js:235 | bitwise or gives a signed 32-bit result |
| Util.BitXor | backend/src/execution/executor.js:238-241 | bitwise xor gives a signed 32-bit result |
| Util.ShiftLeft | backend/src/execution/executor.js:255-258 | `<<` gives a signed 32-bit result |
| Util.ShiftRightLogical | backend/src/execution/executor.js:261-264 | `>>>` gives an unsigned 32-bit result |
| Util.JsRem | backend/src/execution/executor.js:220 | `%` truncates: the remainder is smaller than the divisor in magnitude, takes the sign of the dividend, and the dividend minus the remainder is a multiple of the divisor |
| Util.DivisionUnique | backend/src/execution/executor.js:219-220 | a remainder in the range from 0 up to the divisor's magnitude is the only one that recombines with some quotient to the dividend |
| Util.FloorDiv | backend/src/execution/executor.js:219 | `Math.floor(a / b)` is the floor quotient: `q*b <= a < q*b + b` for a positive divisor, mirrored for a negative one |
| Lexer.KeywordKind | backend/src/compiler/lexer/tokenizer.js:99-111 | a word gets a keyword type exactly when it is one of the eleven keywords, otherwise `IDENTIFIER` |
| Lexer.LineIsNewlinesPlusOne | backend/src/compiler/lexer/tokenizer.js:117-134 | the line counter is one more than the newlines passed |
| Lexer.ColumnOneAtLineStart | backend/src/compiler/lexer/tokenizer.js:117-134 | the column is 1 exactly at the start of the input or just after a newline, and never below 1 |
| Lexer.SkipSpaces | backend/src/compiler/lexer/tokenizer.js:147-156 | white space is skipped up to the first non-space character |
| Lexer.LineCommentEnd | backend/src/compiler/lexer/tokenizer.js:160-165 | a `//` comment ends just past the first newline, and no newline lies inside it |
| Lexer.BlockCommentEnd | backend/src/compiler/lexer/tokenizer.js:166-180 | a `/*` comment ends just past the first `*/`, or at the end of input when there is none |
| Lexer.CommentEnd | backend/src/compiler/lexer/tokenizer.js:158-182 | skipping a comment always moves forward, and moves nowhere when no comment starts |
| Lexer.SkipTrivia | backend/src/compiler/lexer/tokenizer.js:294-308 | after skipping white space and comments the next character starts neither |
| Lexer.RunEnd | backend/src/compiler/lexer/tokenizer.js:190-193 | a run of characters of one class is read to its maximal end |
| Lexer.LexIdentifier | backend/src/compiler/lexer/tokenizer.js:184-201 | an identifier is the maximal run of word characters, typed by `KeywordKind` |
| Lexer.LexNumber | backend/src/compiler/lexer/tokenizer.js:203-231 | a number is `0x` and hex digits, or the maximal run of decimal digits |
| Lexer.LexChar | backend/src/compiler/lexer/tokenizer.js:233-256 | a character literal succeeds exactly when a quote follows its one character or escape, and then holds that text |
| Lexer.StringClose | backend/src/compiler/lexer/tokenizer.js:268-280 | the closing quote found is a `"` not preceded by an escaping backslash |
| Lexer.LexString | backend/src/compiler/lexer/tokenizer.js:261-288 | a string literal fails with "Unterminated string literal" exactly when no closing quote exists; on success it holds the raw text between the quotes |
| Lexer.CharLexed | backend/src/compiler/lexer/tokenizer.js:233-256 | a well-closed character literal becomes a `CHAR_LITERAL` token of its inner text |
| Lexer.StringLexed | backend/src/compiler/lexer/tokenizer.js:261-288 | a closed string literal becomes a `STRING_LITERAL` token of its inner text |
| Lexer.LexOperator | backend/src/compiler/lexer/tokenizer.js:330-430 | an operator token covers one or two characters |
| Lexer.OperatorLongestMatch | backend/src/compiler/lexer/tokenizer.js:330-401 | a two-character operator is always preferred over its one-character prefix |
| Lexer.LexAt | backend/src/compiler/lexer/tokenizer.js:310-430 | a token read at a position consumes at least one character and is never `EOF` |
| Lexer.NextToken | backend/src/compiler/lexer/tokenizer.js:293-434 | `getNextToken` either consumes input or returns `EOF` only after trailing white space and comments |
| Lexer.TokenizeFromEndsWithSingleEof | backend/src/compiler/lexer/tokenizer.js:439-450 | every successful tokenisation ends with exactly one `EOF` token |
| Lexer.TokenizeEndsWithSingleEof | backend/src/compiler/lexer/tokenizer.js:439-450 | as above, for the whole input |
| Lexer.TokenizeEmpty | backend/src/compiler/lexer/tokenizer.js:433 | the empty input gives the single token `EOF` at line 1, column 1 |
| Lexer.CommentsAreSkipped | backend/src/compiler/lexer/tokenizer.js:305-308 | the token read at a comment is the token read after it |
| Lexer.Tokenizer.constructor | backend/src/compiler/lexer/tokenizer.js:91-96 | a new tokenizer starts at position 0 of its input, line 1, column 1 |
| Lexer.Tokenizer.Advance | backend/src/compiler/lexer/tokenizer.js:117-134 | advancing moves one character and keeps line, column and current character consistent |
| Lexer.Tokenizer.Peek | backend/src/compiler/lexer/tokenizer.js:136-145 | `peek` returns the character at the offset, or nothing past the end |
| Lexer.Tokenizer.SkipWhitespace | backend/src/compiler/lexer/tokenizer.js:147-156 | the loop stops where `SkipSpaces` does |
| Lexer.Tokenizer.SkipComment | backend/src/compiler/lexer/tokenizer.js:158-182 | the method stops where `CommentEnd` does |
| Lexer.Tokenizer.SkipLineComment | backend/src/compiler/lexer/tokenizer.js:160-165 | the loop stops where `LineCommentEnd` does |
| Lexer.Tokenizer.SkipBlockComment | backend/src/compiler/lexer/tokenizer.js:166-180 | the loop stops where `BlockCommentEnd` does |
| Lexer.Tokenizer.ReadRun | backend/src/compiler/lexer/tokenizer.js:190-193 | the loop reads exactly the run that `RunEnd` delimits |
| Lexer.Tokenizer.ReadIdentifier | backend/src/compiler/lexer/tokenizer.js:184-201 | the method returns the token and position of `LexIdentifier` |
| Lexer.Tokenizer.ReadNumber | backend/src/compiler/lexer/tokenizer.js:203-231 | the method returns the token and position of `LexNumber` |
| Lexer.Tokenizer.ReadCharLiteral | backend/src/compiler/lexer/tokenizer.js:233-256 | the method returns the token, or the error, of `LexChar` |
| Lexer.Tokenizer.ReadCharBody | backend/src/compiler/lexer/tokenizer.js:239-248 | the body read is one character or one escape pair |
| Lexer.Tokenizer.ReadStringLiteral | backend/src/compiler/lexer/tokenizer.js:261-288 | the method returns the token, or the error, of `LexString` |
| Lexer.Tokenizer.ReadStringUnit | backend/src/compiler/lexer/tokenizer.js:268-280 | one loop round consumes one character or one escape pair and keeps the text read equal to the input slice |
| Lexer.Tokenizer.ReadOperator | backend/src/compiler/lexer/tokenizer.js:330-430 | the method returns the token, or the "Unexpected character" error, of `LexOperator` |
| Lexer.Tokenizer.GetNextToken | backend/src/compiler/lexer/tokenizer.js:293-434 | the method returns the token, or the error, of `NextToken` |
| Lexer.Tokenizer.Tokenize | backend/src/compiler/lexer/tokenizer.js:439-450 | the method returns exactly `TokenStream(input)`: all tokens up to and including `EOF`, or the first error |
| Ast.NewProgram | backend/src/compiler/parser/ast_nodes.js:362-368 | a new program has no functions, declarations or statements |
| Ast.ExprTagsNameVariants | backend/src/compiler/parser/ast_nodes.js:508-544 | two expressions carry the same `type` tag exactly when they are the same kind of node |
| Ast.StmtTagsNameVariants | backend/src/compiler/parser/ast_nodes.js:393-565 | the same for statements, and no statement tag equals an expression tag |
| Grammar.Adv | backend/src/compiler/parser/parser.js:30-36 | `advance` moves one token forward and stays on the last token, so it moves exactly when not on `EOF` |
| Grammar.PeekTok | backend/src/compiler/parser/parser.js:22-28 | `peek` returns the token at the offset, or the last (`EOF`) token past the end |
| Grammar.ExpectedAt | backend/src/compiler/parser/parser.js:125 | a thrown "Expected …" message mentions "expected" |
| Grammar.UnexpectedToken | backend/src/compiler/parser/parser.js:253 | the "Unexpected token" message mentions "expected" |
| Grammar.ExpectMessage | backend/src/compiler/parser/parser.js:42-48 | every `expect` failure message mentions "expected" |
| Grammar.Expect | backend/src/compiler/parser/parser.js:42-52 | `expect` succeeds exactly when the current token has the wanted type; it then returns that token and advances, else fails with the "… Expected TYPE, got …" message |
| Grammar.ParseProgram | backend/src/compiler/parser/parser.js:64-98 | a program parse that fails reports a message mentioning "expected" |
| Grammar.ParseTopLevel | backend/src/compiler/parser/parser.js:75-95 | the top-level loop fails only with messages mentioning "expected" |
| Grammar.ParseFunctionDeclaration | backend/src/compiler/parser/parser.js:105-146 | a function keeps its return type and name from the first two tokens, and the parse consumes tokens |
| Grammar.ParseParamList | backend/src/compiler/parser/parser.js:120-137 | the parameter list consumes tokens and fails only with "expected" messages |
| Grammar.ParseDeclaration | backend/src/compiler/parser/parser.js:153-186 | a declaration parse yields a declaration node and consumes tokens |
| Grammar.ParseArraySuffix | backend/src/compiler/parser/parser.js:164-175 | without `[` a declaration is a scalar with no size; with it, an array |
| Grammar.ParseInitializer | backend/src/compiler/parser/parser.js:177-181 | a declaration has an initial value exactly when `=` follows the name |
| Grammar.ParseStatement | backend/src/compiler/parser/parser.js:190-254 | a statement parse consumes tokens and fails only with "expected" messages |
| Grammar.ParseReturn | backend/src/compiler/parser/parser.js:258-272 | a return statement consumes tokens |
| Grammar.ParseOptionalExpression | backend/src/compiler/parser/parser.js:264-267 | the optional expression is absent exactly when the stop token comes next |
| Grammar.ParseBlock | backend/src/compiler/parser/parser.js:276-294 | a block starts at `{`, ends just after `}` and yields a block node |
| Grammar.ParseBlockRest | backend/src/compiler/parser/parser.js:282-291 | the rest of a block ends just after `}` |
| Grammar.ParseBlockItems | backend/src/compiler/parser/parser.js:283-289 | the items of a block run up to a `}` or the end of input |
| Grammar.ParseBody | backend/src/compiler/parser/parser.js:309-315 | a body without braces is a single statement |
| Grammar.ParseIf | backend/src/compiler/parser/parser.js:298-329 | an `if` statement consumes tokens |
| Grammar.ParseElse | backend/src/compiler/parser/parser.js:317-326 | without `else` there is no else branch; with it there is one |
| Grammar.ParseFor | backend/src/compiler/parser/parser.js:331-375 | a `for` statement consumes tokens |
| Grammar.ParseForInit | backend/src/compiler/parser/parser.js:338-349 | the `for` initialiser is absent exactly when `;` comes first |
| Grammar.ParseForUpdate | backend/src/compiler/parser/parser.js:358-362 | the `for` update is absent exactly when `)` comes first |
| Grammar.ParseWhile | backend/src/compiler/parser/parser.js:377-397 | a `while` statement consumes tokens |
| Grammar.ParseDoWhile | backend/src/compiler/parser/parser.js:399-422 | a `do`-`while` statement consumes tokens |
| Grammar.ParsePrintf | backend/src/compiler/parser/parser.js:426-446 | a `printf` statement consumes tokens |
| Grammar.ParsePrintfArgs | backend/src/compiler/parser/parser.js:436-440 | the argument loop stops at the first token that is not a comma |
| Grammar.ParseScanf | backend/src/compiler/parser/parser.js:448-470 | a `scanf` statement consumes tokens |
| Grammar.ParseScanfArgs | backend/src/compiler/parser/parser.js:458-464 | the target loop stays inside the token list and fails only with "expected" messages |
| Grammar.ParseOptionalIndex | backend/src/compiler/parser/parser.js:483-488 | without `[` there is no index; with it, an index expression closed by `]` |
| Grammar.ParseAssignmentOrExpression | backend/src/compiler/parser/parser.js:477-510 | an assignment or `x++;` statement consumes tokens |
| Grammar.ParseAssignment | backend/src/compiler/parser/parser.js:515-546 | a `for`-clause assignment yields an assignment node |
| Grammar.OpLevel | backend/src/compiler/parser/parser.js:554-682 | the binary operators sit on ten precedence levels, loosest (logical or) first |
| Grammar.ParseExpression | backend/src/compiler/parser/parser.js:550-552 | an expression parse consumes tokens and fails only with "expected" messages |
| Grammar.ParseLevel | backend/src/compiler/parser/parser.js:554-682 | each precedence level consumes tokens |
| Grammar.ParseLevelRest | backend/src/compiler/parser/parser.js:556-564 | a level loop stops at once when the next token is no operator of its level |
| Grammar.ParseUnary | backend/src/compiler/parser/parser.js:684-694 | a unary expression consumes tokens |
| Grammar.ParsePrimary | backend/src/compiler/parser/parser.js:698-755 | a primary expression consumes tokens |
| Grammar.ParseFunctionCall | backend/src/compiler/parser/parser.js:762-783 | a call node carries the name of its first token |
| Grammar.ParseCallArgs | backend/src/compiler/parser/parser.js:772-778 | a non-empty argument list stops at the first token that is not a comma |
| GrammarFacts.DeclarationShape | backend/src/compiler/parser/parser.js:153-186 | a parsed declaration has the type and the name of its first two tokens; it is an array exactly when `[` follows; the size is `parseInt` of the NUMBER after `[` or absent; it ends with `;` |
| GrammarFacts.ParamTypeError | backend/src/compiler/parser/parser.js:124-126 | any token but `int` or `char` where a parameter type belongs fails with "Expected parameter type" |
| GrammarFacts.ParamListShape | backend/src/compiler/parser/parser.js:120-137 | a parameter list is triples of type, name and comma, each parameter taking its type and name from its tokens |
| GrammarFacts.ParamsCons | backend/src/compiler/parser/parser.js:134-135 | a parameter followed by a comma is put in front of the rest of the list |
| GrammarFacts.ScanfTargetError | backend/src/compiler/parser/parser.js:461 | a comma in `scanf` not followed by `&` fails with "Expected & before variable in scanf" |
| GrammarFacts.ScanfArgsShape | backend/src/compiler/parser/parser.js:458-464 | `scanf` targets are triples of comma, `&` and identifier, each target being the identifier's name |
| GrammarFacts.TargetsCons | backend/src/compiler/parser/parser.js:459-463 | one target triple is put in front of the rest of the targets |
| GrammarFacts.NumberAtUnaryLevel | backend/src/compiler/parser/parser.js:703-707 | a NUMBER token parses to a number literal at the unary level |
| GrammarFacts.LiftLevels | backend/src/compiler/parser/parser.js:554-682 | an expression parsed at a tighter level is the result at a looser level when no operator of the levels between follows |
| GrammarFacts.NarrowLevels | backend/src/compiler/parser/parser.js:554-682 | when nothing of the looser levels follows, the next token is no operator of the loosest level |
| GrammarFacts.LevelStops | backend/src/compiler/parser/parser.js:556-564 | a level whose operator does not follow returns the operand of the tighter level |
| GrammarFacts.FoldOnce | backend/src/compiler/parser/parser.js:556-564 | one operator of a level with its right operand folds into a binary node |
| GrammarFacts.ThreeOperands | backend/src/compiler/parser/parser.js:550-682 | `a o1 b o2 c` parses to `a o1 (b o2 c)` when o2 binds tighter and to `(a o1 b) o2 c` otherwise: precedence and left associativity |
| GrammarFacts.TighterSecond | backend/src/compiler/parser/parser.js:554-682 | the tighter second operator takes `b` and `c` first |
| GrammarFacts.SameLevel | backend/src/compiler/parser/parser.js:554-682 | operators of one level associate to the left |
| GrammarFacts.RestStep | backend/src/compiler/parser/parser.js:556-564 | the level loop folds one operator and goes on from where its right operand ended |
| GrammarFacts.LooserSecond | backend/src/compiler/parser/parser.js:554-682 | a looser second operator takes `a o1 b` as its left operand |
| GrammarFacts.ThreeNumbers | backend/src/compiler/parser/parser.js:550-707 | the same for three NUMBER operands |
| GrammarFacts.UnaryBindsTighter | backend/src/compiler/parser/parser.js:684-694 | a prefix operator binds tighter than every binary operator: `- a o b` is `(- a) o b` |
| GrammarFacts.IncrementStatement | backend/src/compiler/parser/parser.js:499-507 | `x++;` is an expression statement around the unary `++` on `x` |
| GrammarFacts.IncrementUpdate | backend/src/compiler/parser/parser.js:528-545 | `x++` in a `for` clause is an assignment with operator `++` whose expression is the unary node on `x` |
| GrammarFacts.TopLevelExtends | backend/src/compiler/parser/parser.js:75-95 | the top-level loop only appends to the function, declaration and statement lists |
| GrammarFacts.TopLevelStep | backend/src/compiler/parser/parser.js:75-95 | one round of the loop moves forward, keeps the earlier entries and leaves the final result unchanged |
| GrammarFacts.TopLevelFunction | backend/src/compiler/parser/parser.js:81-84 | a type keyword followed by `IDENT (` adds a function |
| GrammarFacts.TopLevelDeclaration | backend/src/compiler/parser/parser.js:85-89 | any other type keyword adds a global declaration |
| GrammarFacts.TopLevelStatement | backend/src/compiler/parser/parser.js:90-94 | any other token adds a top-level statement |
| GrammarFacts.TopLevelDeclarations | backend/src/compiler/parser/parser.js:85-89 | the loop adds only declaration nodes to `declarations` |
| GrammarFacts.ProgramDeclarations | backend/src/compiler/parser/parser.js:64-98 | every entry of a parsed program's `declarations` is a declaration node |
| GrammarFacts.TopLevelDispatch | backend/src/compiler/parser/parser.js:75-95 | a type keyword then `IDENT (` gives the next function, another type keyword the next declaration, any other token the next statement, each equal to what the matching parse returns |
| GrammarFacts.EmptyTokenList | backend/src/compiler/parser/parser.js:64-98 | a token list holding only `EOF` parses to the empty program |
| Parsing.PrependAllAppend | backend/src/compiler/parser/parser.js:436-440 | putting items in front of a list one at a time equals putting them in front together |
| Parsing.ParamStep | backend/src/compiler/parser/parser.js:127-135 | one parameter round fails as the whole list does, or continues after the comma |
| Parsing.ParseTokens | backend/src/compiler/compiler.js:48-49 | parsing a token list by a fresh parser gives `ParseProgram`, and its failures mention "expected" |
| Parsing.Parser.constructor | backend/src/compiler/parser/parser.js:14-18 | a new parser sits on the first token |
| Parsing.Parser.Advance | backend/src/compiler/parser/parser.js:30-36 | the cursor moves as `Adv` says |
| Parsing.Parser.Expect | backend/src/compiler/parser/parser.js:42-52 | the method returns the token, or the message, of `Grammar.Expect` and moves as it does |
| Parsing.Parser.Parse | backend/src/compiler/parser/parser.js:64-98 | the loop returns exactly `ParseTopLevel` from the cursor |
| Parsing.Parser.ParseFunctionDeclaration | backend/src/compiler/parser/parser.js:105-146 | the method agrees with `Grammar.ParseFunctionDeclaration` |
| Parsing.Parser.ParseParameters | backend/src/compiler/parser/parser.js:120-137 | the loop agrees with `Grammar.ParseParamList` |
| Parsing.Parser.ParseParameter | backend/src/compiler/parser/parser.js:124-135 | one round of the parameter loop moves forward and is the head of the grammar's list |
| Parsing.Parser.ParseDeclaration | backend/src/compiler/parser/parser.js:153-186 | the method agrees with `Grammar.ParseDeclaration` |
| Parsing.Parser.ParseArraySuffix | backend/src/compiler/parser/parser.js:164-175 | the method agrees with `Grammar.ParseArraySuffix` |
| Parsing.Parser.ParseInitializer | backend/src/compiler/parser/parser.js:177-181 | the method agrees with `Grammar.ParseInitializer` |
| Parsing.Parser.ParseStatement | backend/src/compiler/parser/parser.js:190-254 | the method agrees with `Grammar.ParseStatement` |
| Parsing.Parser.ParseReturnStatement | backend/src/compiler/parser/parser.js:258-272 | the method agrees with `Grammar.ParseReturn` |
| Parsing.Parser.ParseOptionalExpression | backend/src/compiler/parser/parser.js:264-267 | the method agrees with `Grammar.ParseOptionalExpression` |
| Parsing.Parser.ParseBlock | backend/src/compiler/parser/parser.js:276-294 | the loop agrees with `Grammar.ParseBlock` |
| Parsing.Parser.ParseBlockItem | backend/src/compiler/parser/parser.js:284-288 | one round of the block loop moves forward and is the head of the grammar's item list |
| Parsing.Parser.ParseBody | backend/src/compiler/parser/parser.js:309-315 | the method agrees with `Grammar.ParseBody` |
| Parsing.Parser.ParseIfStatement | backend/src/compiler/parser/parser.js:298-329 | the method agrees with `Grammar.ParseIf` |
| Parsing.Parser.ParseForLoop | backend/src/compiler/parser/parser.js:331-375 | the method agrees with `Grammar.ParseFor` |
| Parsing.Parser.ParseForInit | backend/src/compiler/parser/parser.js:338-349 | the method agrees with `Grammar.ParseForInit` |
| Parsing.Parser.ParseForUpdate | backend/src/compiler/parser/parser.js:358-363 | the method agrees with `Grammar.ParseForUpdate` |
| Parsing.Parser.ParseWhileLoop | backend/src/compiler/parser/parser.js:377-397 | the method agrees with `Grammar.ParseWhile` |
| Parsing.Parser.ParseDoWhileLoop | backend/src/compiler/parser/parser.js:399-422 | the method agrees with `Grammar.ParseDoWhile` |
| Parsing.Parser.ParsePrintf | backend/src/compiler/parser/parser.js:426-446 | the method agrees with `Grammar.ParsePrintf` |
| Parsing.Parser.ParsePrintfArguments | backend/src/compiler/parser/parser.js:436-440 | the loop agrees with `Grammar.ParsePrintfArgs` |
| Parsing.Parser.ParsePrintfArgument | backend/src/compiler/parser/parser.js:437-439 | one round of the argument loop moves forward and is the head of the grammar's list |
| Parsing.Parser.ParseScanf | backend/src/compiler/parser/parser.js:448-470 | the method agrees with `Grammar.ParseScanf` |
| Parsing.Parser.ParseScanfTargets | backend/src/compiler/parser/parser.js:458-464 | the loop agrees with `Grammar.ParseScanfArgs` |
| Parsing.Parser.ParseScanfTarget | backend/src/compiler/parser/parser.js:459-463 | one round of the target loop moves forward and is the head of the grammar's list |
| Parsing.Parser.ParseAssignmentOrExpression | backend/src/compiler/parser/parser.js:477-510 | the method agrees with `Grammar.ParseAssignmentOrExpression` |
| Parsing.Parser.ParseAssignment | backend/src/compiler/parser/parser.js:515-546 | the method agrees with `Grammar.ParseAssignment` |
| Parsing.Parser.ParseOptionalIndex | backend/src/compiler/parser/parser.js:483-488 | the method agrees with `Grammar.ParseOptionalIndex` |
| Parsing.Parser.ParseExpression | backend/src/compiler/parser/parser.js:550-552 | the method agrees with `Grammar.ParseExpression` |
| Parsing.Parser.ParseLevel | backend/src/compiler/parser/parser.js:554-682 | the loop of each precedence level agrees with `Grammar.ParseLevel` |
| Parsing.Parser.ParseLevelStep | backend/src/compiler/parser/parser.js:556-563 | one operator round moves forward and folds as the grammar does |
| Parsing.Parser.ParseUnary | backend/src/compiler/parser/parser.js:684-694 | the method agrees with `Grammar.ParseUnary` |
| Parsing.Parser.ParsePrimary | backend/src/compiler/parser/parser.js:698-755 | the method agrees with `Grammar.ParsePrimary` |
| Parsing.Parser.ParseFunctionCallExpression | backend/src/compiler/parser/parser.js:762-783 | the method agrees with `Grammar.ParseFunctionCall` |
| Parsing.Parser.ParseCallArguments | backend/src/compiler/parser/parser.js:771-778 | the loop agrees with `Grammar.ParseCallArgs` |
| Parsing.Parser.ParseCallArgument | backend/src/compiler/parser/parser.js:774-776 | one round of the argument loop moves forward and is the head of the grammar's list |
| Symbols.Table.DefineVariable | backend/src/compiler/semantic/semantic_analyzer.js:47-52 | after `defineVariable` the name is defined, the functions are untouched |
| Symbols.Table.Lookup | backend/src/compiler/semantic/semantic_analyzer.js:54-59 | `lookup` succeeds exactly for a defined name and otherwise throws "Undefined variable '…'" |
| Symbols.Table.GlobalSymbols | backend/src/compiler/semantic/semantic_analyzer.js:61-63 | `getGlobalSymbols` lists one symbol per defined name, in definition order |
| Symbols.Table.DefineFunction | backend/src/compiler/semantic/semantic_analyzer.js:67-72 | after `defineFunction` the name is a function; variables and their order are untouched |
| Symbols.Table.LookupFunction | backend/src/compiler/semantic/semantic_analyzer.js:74-79 | `lookupFunction` succeeds exactly for a registered name and otherwise throws "Undefined function '…'" |
| Symbols.EmptyTable | backend/src/compiler/semantic/semantic_analyzer.js:39-43 | a new table is well formed and empty |
| Symbols.DefineVariableValid | backend/src/compiler/semantic/semantic_analyzer.js:47-52 | defining a variable keeps the definition order free of repeats |
| Symbols.LookupAfterDefine | backend/src/compiler/semantic/semantic_analyzer.js:47-59 | the first definition of a name wins: a second `defineVariable` of it changes nothing, and other names are unaffected |
| Symbols.LookupFunctionAfterDefine | backend/src/compiler/semantic/semantic_analyzer.js:67-79 | the first registration of a function wins, and other names are unaffected |
| Symbols.DistinctCard | backend/src/compiler/semantic/semantic_analyzer.js:83-87 | a list of distinct names has as many elements as its set |
| Symbols.TotalSymbolsCountsNames | backend/src/compiler/semantic/semantic_analyzer.js:83-87 | `totalSymbols` is the number of distinct variable names defined |
| Symbols.DefineAllKeys | backend/src/compiler/semantic/semantic_analyzer.js:47-52 | defining a list of names adds exactly those names |
| Symbols.DefineAllCounts | backend/src/compiler/semantic/semantic_analyzer.js:83-87 | defining a list of names from empty counts each distinct name once, repeats not counted |
| Symbols.SymbolTable.constructor | backend/src/compiler/semantic/semantic_analyzer.js:39-43 | a new table object holds the empty table |
| Symbols.SymbolTable.DefineVariable | backend/src/compiler/semantic/semantic_analyzer.js:47-52 | the object's new table is `Table.DefineVariable` of the old one, and the symbol returned is the one `lookup` finds (the first definition) |
| Symbols.SymbolTable.DefineFunction | backend/src/compiler/semantic/semantic_analyzer.js:67-72 | the object's new table is `Table.DefineFunction` of the old one, and the symbol returned is the one `lookupFunction` finds |
| ScopedSymbols.LookupFrom | backend/src/compiler/semantic/symbol_table.js:357-366 | lookup from scope i succeeds exactly when some scope at or below i binds the name, and otherwise throws "Undefined variable '…'" |
| ScopedSymbols.LookupFindsInnermost | backend/src/compiler/semantic/symbol_table.js:357-366 | the symbol found is the one of the innermost scope binding the name |
| ScopedSymbols.PushKeepsTotal | backend/src/compiler/semantic/symbol_table.js:309-312 | entering a scope leaves the variable total unchanged |
| ScopedSymbols.BindAddsOne | backend/src/compiler/semantic/symbol_table.js:327-338 | a new binding adds one to the variable total |
| ScopedSymbols.PushedScopeFirst | backend/src/compiler/semantic/symbol_table.js:357-366 | a name bound in the newest scope shadows every outer binding; otherwise lookup goes on outward |
| ScopedSymbols.LookupPrefix | backend/src/compiler/semantic/symbol_table.js:357-366 | scopes above the current one do not affect lookup |
| ScopedSymbols.ShadowedLookup | backend/src/compiler/semantic/symbol_table.js:357-366 | a name bound in scope k and in no scope above it up to i resolves to scope k's symbol |
| ScopedSymbols.ScopedTable.constructor | backend/src/compiler/semantic/symbol_table.js:300-304 | a new table has just the empty global scope and no functions |
| ScopedSymbols.ScopedTable.EnterScope | backend/src/compiler/semantic/symbol_table.js:309-312 | an empty scope is pushed and the depth goes up by one |
| ScopedSymbols.ScopedTable.ExitScope | backend/src/compiler/semantic/symbol_table.js:317-322 | the innermost scope is popped, unless only the global scope is left |
| ScopedSymbols.ScopedTable.Define | backend/src/compiler/semantic/symbol_table.js:327-338 | a name already in the current scope is an error ("already defined in current scope") leaving the table unchanged; otherwise it is bound there, tagged global exactly at depth 0, and lookup then finds it |
| ScopedSymbols.ScopedTable.DefineFunction | backend/src/compiler/semantic/symbol_table.js:343-352 | a second definition of a function is an error; a first one is stored marked as defined |
| ScopedSymbols.ScopedTable.Lookup | backend/src/compiler/semantic/symbol_table.js:357-366 | the loop returns exactly `LookupFrom` at the current scope |
| ScopedSymbols.ScopedTable.Exists | backend/src/compiler/semantic/symbol_table.js:381-388 | `exists` is true exactly when `lookup` would succeed |
| ScopedSymbols.ScopedTable.LookupFunction | backend/src/compiler/semantic/symbol_table.js:371-376 | `lookupFunction` returns the stored function, or throws "Undefined function '…'" |
| ScopedSymbols.ScopedTable.GetStats | backend/src/compiler/semantic/symbol_table.js:443-454 | the totals are the sum of the scope sizes, the global scope's size, the function count and the depth |
| Analysis.Require | backend/src/compiler/semantic/semantic_analyzer.js:54-59 | a failed lookup reports "Undefined variable" |
| Analysis.AnalyzeExpr | backend/src/compiler/semantic/semantic_analyzer.js:244-279 | analysing an expression fails only with "Undefined variable" |
| Analysis.AnalyzeExprs | backend/src/compiler/semantic/semantic_analyzer.js:274 | analysing a list of expressions fails only with "Undefined variable" |
| Analysis.AnalyzeOptExpr | backend/src/compiler/semantic/semantic_analyzer.js:187 | an absent expression is skipped; a present one fails only with "Undefined variable" |
| Analysis.HandleDeclaration | backend/src/compiler/semantic/semantic_analyzer.js:139-150 | a declaration fails only with "Undefined variable", from its initialiser |
| Analysis.RequireAll | backend/src/compiler/semantic/semantic_analyzer.js:224-226 | the `scanf` targets fail only with "Undefined variable" |
| Analysis.AnalyzeStmt | backend/src/compiler/semantic/semantic_analyzer.js:169-242 | analysing a statement fails only with "Undefined variable" |
| Analysis.AnalyzeOptStmt | backend/src/compiler/semantic/semantic_analyzer.js:199-201 | an absent `for` clause is skipped |
| Analysis.AnalyzeElse | backend/src/compiler/semantic/semantic_analyzer.js:194 | an absent else branch is skipped |
| Analysis.AnalyzeStmts | backend/src/compiler/semantic/semantic_analyzer.js:193 | a statement list fails only with "Undefined variable" |
| Analysis.AnalyzeFunction | backend/src/compiler/semantic/semantic_analyzer.js:152-162 | a function fails only with "Undefined variable" |
| Analysis.DeclareGlobals | backend/src/compiler/semantic/semantic_analyzer.js:117 | the global declarations fail only with "Undefined variable" |
| Analysis.AnalyzeFunctions | backend/src/compiler/semantic/semantic_analyzer.js:126 | the function bodies fail only with "Undefined variable" |
| Analysis.AnalyzeProgram | backend/src/compiler/semantic/semantic_analyzer.js:115-135 | the whole analysis fails only with "Undefined variable" |
| Analysis.UnregisteredAppend | backend/src/compiler/semantic/semantic_analyzer.js:268-273 | the warnings for two call lists are those of each, in order |
| Analysis.UnregisteredCounts | backend/src/compiler/semantic/semantic_analyzer.js:268-273 | no warning exactly when every callee is registered; one per call when none is |
| Analysis.ExprEffect | backend/src/compiler/semantic/semantic_analyzer.js:244-279 | an expression leaves the table unchanged and appends one warning per call to an unregistered function, in call order |
| Analysis.CheckCallWarns | backend/src/compiler/semantic/semantic_analyzer.js:269-273 | a call to an unregistered function appends its "Undefined function" message as a warning |
| Analysis.ExprsEffect | backend/src/compiler/semantic/semantic_analyzer.js:274 | the same for a list of expressions |
| Analysis.ExprDefined | backend/src/compiler/semantic/semantic_analyzer.js:244-279 | an expression analyses without error exactly when every variable it reads is defined |
| Analysis.ExprsDefined | backend/src/compiler/semantic/semantic_analyzer.js:274 | the same for a list of expressions |
| Analysis.TableGrowsTrans | backend/src/compiler/semantic/semantic_analyzer.js:47-52 | growth of the table composes |
| Analysis.GrowsTrans | backend/src/compiler/semantic/semantic_analyzer.js:169-279 | growth of table and warnings composes |
| Analysis.GrowsRefl | backend/src/compiler/semantic/semantic_analyzer.js:169-279 | doing nothing is growth by nothing |
| Analysis.DefineGrows | backend/src/compiler/semantic/semantic_analyzer.js:141-146 | a definition adds exactly its name and keeps earlier symbols |
| Analysis.ExprGrows | backend/src/compiler/semantic/semantic_analyzer.js:244-279 | an expression adds no name and warns once per unregistered call |
| Analysis.OptExprGrows | backend/src/compiler/semantic/semantic_analyzer.js:187 | the same for an optional expression |
| Analysis.ExprsGrows | backend/src/compiler/semantic/semantic_analyzer.js:274 | the same for a list of expressions |
| Analysis.DeclarationGrows | backend/src/compiler/semantic/semantic_analyzer.js:139-150 | a declaration adds its own name and warns for the calls of its initialiser |
| Analysis.RequireAllKeeps | backend/src/compiler/semantic/semantic_analyzer.js:224-226 | the `scanf` targets pass exactly when all are defined, and change nothing |
| Analysis.StmtGrows | backend/src/compiler/semantic/semantic_analyzer.js:169-242 | a statement adds exactly the names it declares (in nested blocks too) and warns once per unregistered call |
| Analysis.ForGrows | backend/src/compiler/semantic/semantic_analyzer.js:198-204 | the same for a `for` statement |
| Analysis.OptStmtGrows | backend/src/compiler/semantic/semantic_analyzer.js:199-201 | the same for an optional `for` clause |
| Analysis.ElseGrows | backend/src/compiler/semantic/semantic_analyzer.js:194 | the same for an else branch |
| Analysis.StmtsGrows | backend/src/compiler/semantic/semantic_analyzer.js:193 | the same for a statement list |
| Analysis.DefineParamsGrows | backend/src/compiler/semantic/semantic_analyzer.js:155-157 | parameters are defined as scalar variables of the one flat table |
| Analysis.FunctionsGrow | backend/src/compiler/semantic/semantic_analyzer.js:126 | the function bodies add their parameters and declarations and warn once per unregistered call |
| Analysis.GlobalsGrow | backend/src/compiler/semantic/semantic_analyzer.js:117 | the globals add their names and warn for the calls in their initialisers |
| Analysis.RegisterFunctionsNames | backend/src/compiler/semantic/semantic_analyzer.js:120-123 | registration adds exactly the program's function names and touches no variable |
| Analysis.ProgramEffect | backend/src/compiler/semantic/semantic_analyzer.js:115-135 | after analysis the table is well formed, holds exactly the program's functions and exactly its declared names and parameters; the warnings are one per call to an unregistered function, where global initialisers see no function and bodies and top-level statements see all of them |
| Analysis.ForwardCallsResolve | backend/src/compiler/semantic/semantic_analyzer.js:120-126 | a call to a function defined later in the file gives no warning |
| Analysis.ParamsInFlatTable | backend/src/compiler/semantic/semantic_analyzer.js:152-157 | every parameter of every function ends up in the one flat variable table |
| Analysis.FunctionDeclaredHas | backend/src/compiler/semantic/semantic_analyzer.js:155-157 | each function's parameters are among the names its analysis declares |
| Analysis.TotalSymbolsAfterAnalysis | backend/src/compiler/semantic/semantic_analyzer.js:83-87 | `totalSymbols` after analysis is the number of distinct declared names |
| Analysis.TargetsMustBeDefined | backend/src/compiler/semantic/semantic_analyzer.js:180-184 | an assignment passes exactly when its target and every variable it reads are defined; a `scanf` exactly when all its targets are |
| Analyzer.SemanticAnalyzer.constructor | backend/src/compiler/semantic/semantic_analyzer.js:110-113 | a new analyzer holds a fresh empty table and no warnings |
| Analyzer.SemanticAnalyzer.Analyze | backend/src/compiler/semantic/semantic_analyzer.js:115-135 | the method ends in the state `AnalyzeProgram` computes, or throws its error |
| Analyzer.SemanticAnalyzer.HandleDeclaration | backend/src/compiler/semantic/semantic_analyzer.js:139-150 | the method follows `Analysis.HandleDeclaration` |
| Analyzer.SemanticAnalyzer.AnalyzeFunction | backend/src/compiler/semantic/semantic_analyzer.js:152-162 | the method follows `Analysis.AnalyzeFunction` |
| Analyzer.SemanticAnalyzer.AnalyzeStatement | backend/src/compiler/semantic/semantic_analyzer.js:169-242 | the method follows `AnalyzeStmt` |
| Analyzer.SemanticAnalyzer.AnalyzeIf | backend/src/compiler/semantic/semantic_analyzer.js:191-196 | the `if` branch follows `AnalyzeStmt` |
| Analyzer.SemanticAnalyzer.AnalyzeFor | backend/src/compiler/semantic/semantic_analyzer.js:198-204 | the `for` branch follows `AnalyzeStmt` |
| Analyzer.SemanticAnalyzer.AnalyzeStatements | backend/src/compiler/semantic/semantic_analyzer.js:193 | the `forEach` over statements follows `AnalyzeStmts` |
| Analyzer.SemanticAnalyzer.LookupEach | backend/src/compiler/semantic/semantic_analyzer.js:224-226 | the `scanf` loop follows `RequireAll` and changes nothing |
| Analyzer.SemanticAnalyzer.AnalyzeExpression | backend/src/compiler/semantic/semantic_analyzer.js:244-279 | the method follows `AnalyzeExpr` |
| Analyzer.SemanticAnalyzer.AnalyzeExpressions | backend/src/compiler/semantic/semantic_analyzer.js:274 | the `forEach` over arguments follows `AnalyzeExprs` |
| Registers.TempRun | backend/src/compiler/codegen/register_allocator.js:275-280 | n successive `allocateTemp` calls from counter s hand out n registers, the i-th being `$t((s+i) mod 10)` |
| Registers.TempRegistersDistinct | backend/src/compiler/codegen/register_allocator.js:259-262 | the ten temporary registers are distinct |
| Registers.TenConsecutiveCoverAll | backend/src/compiler/codegen/register_allocator.js:275-280 | any ten consecutive temporary allocations give ten distinct registers, covering all of `$t0`-`$t9` |
| Registers.RegisterAllocator.constructor | backend/src/compiler/codegen/register_allocator.js:257-273 | both counters and the usage count start at 0 |
| Registers.RegisterAllocator.AllocateTemp | backend/src/compiler/codegen/register_allocator.js:275-280 | returns the temporary under the counter, advances it round-robin modulo 10 and counts the use |
| Registers.RegisterAllocator.AllocateSaved | backend/src/compiler/codegen/register_allocator.js:282-286 | returns the saved register under the counter, advances it modulo 8 and does not count the use |
| Registers.RegisterAllocator.Reset | backend/src/compiler/codegen/register_allocator.js:288-291 | both counters return to 0 while the usage count is kept |
| Registers.RegisterAllocator.AllocateRun | backend/src/compiler/codegen/register_allocator.js:275-280 | not a method of the source but a harness over its `allocateTemp`: n calls in a row hand out exactly `TempRun` and count n uses, which ties TempRun to the allocator's state |
| Registers.RegisterAllocator.GetStats | backend/src/compiler/codegen/register_allocator.js:293-299 | the stats report the usage count and the pool sizes 10 and 8 |
| CodeGen.Alloc | backend/src/compiler/codegen/register_allocator.js:275-280 | the generator's allocation takes one of the ten temporaries, counts one more use and leaves the text and labels alone |
| CodeGen.NewLabel | backend/src/compiler/codegen/mips_generator.js:704-706 | a new label consumes exactly one step of the label counter and changes nothing else |
| CodeGen.GenExpr | backend/src/compiler/codegen/mips_generator.js:423-446 | an expression's code only appends lines, allocates at least one register, takes no label and leaves its value in a temporary; failure happens only for a name the table does not hold |
| CodeGen.GenBinary | backend/src/compiler/codegen/mips_generator.js:479-548 | a binary expression appends code, takes no label and puts its value in a temporary; it fails only on an undefined variable in an operand |
| CodeGen.GenUnary | backend/src/compiler/codegen/mips_generator.js:550-578 | a unary expression (including the increment and decrement that store back) appends code into a temporary; it fails only on an undefined variable |
| CodeGen.GenCall | backend/src/compiler/codegen/mips_generator.js:580-627 | a call appends code and returns its result in a temporary; it fails only on an undefined variable in an argument |
| CodeGen.GenArgs | backend/src/compiler/codegen/mips_generator.js:594-603 | at most four arguments are evaluated, left to right, giving one register each; the rest are dropped |
| CodeGen.LoadVariable | backend/src/compiler/codegen/mips_generator.js:631-661 | reading a variable (scalar or indexed) yields a temporary; a name missing from the symbol table is the "Undefined variable" error |
| CodeGen.StoreVariable | backend/src/compiler/codegen/mips_generator.js:663-689 | writing a variable only appends lines; a name missing from the symbol table is the "Undefined variable" error |
| CodeGen.GenStmt | backend/src/compiler/codegen/mips_generator.js:157-201 | a statement appends code and takes exactly two labels per control statement it contains; it fails only on an undefined variable |
| CodeGen.GenSimple | backend/src/compiler/codegen/mips_generator.js:157-201 | a statement that is not a control statement takes no label |
| CodeGen.GenStmts | backend/src/compiler/codegen/mips_generator.js:157-201 | a block takes two labels per control statement in it, and its code extends the text |
| CodeGen.GenOptStmt | backend/src/compiler/codegen/mips_generator.js:282-300 | a missing for-loop init or update emits nothing; a present one behaves as a statement |
| CodeGen.GenDeclaration | backend/src/compiler/codegen/mips_generator.js:203-209 | a declaration emits code only for an initialiser, which it stores into the variable; no label is taken |
| CodeGen.GenAssignment | backend/src/compiler/codegen/mips_generator.js:211-246 | an assignment, plain or compound, appends code and takes no label |
| CodeGen.GenCompound | backend/src/compiler/codegen/mips_generator.js:218-245 | a compound assignment loads the variable, combines it with the right side and stores it back, taking no label |
| CodeGen.Combine | backend/src/compiler/codegen/mips_generator.js:219-244 | combining two registers for a compound assignment allocates a fresh temporary, appends code and takes no label |
| CodeGen.GenIf | backend/src/compiler/codegen/mips_generator.js:248-273 | an if takes its own two labels plus those of its branches |
| CodeGen.GenIfBranches | backend/src/compiler/codegen/mips_generator.js:255-272 | the then block and the else part take exactly their own labels |
| CodeGen.GenElse | backend/src/compiler/codegen/mips_generator.js:266-270 | a missing else emits nothing, a block or an else-if takes its own labels |
| CodeGen.GenFor | backend/src/compiler/codegen/mips_generator.js:275-304 | a for loop takes its own two labels plus those of its init, body and update |
| CodeGen.GenForRest | backend/src/compiler/codegen/mips_generator.js:288-303 | the test, body, update and back jump of a for loop take the labels of the body and update |
| CodeGen.GenLoopTest | backend/src/compiler/codegen/mips_generator.js:289-292 | a for loop without condition has no test; with one, the test takes no label |
| CodeGen.GenWhile | backend/src/compiler/codegen/mips_generator.js:306-320 | a while loop takes its two labels plus those of its body |
| CodeGen.GenDoWhile | backend/src/compiler/codegen/mips_generator.js:322-334 | a do-while loop takes its two labels plus those of its body |
| CodeGen.FormatSpecs | backend/src/compiler/codegen/mips_generator.js:340 | the conversions found in a format string are drawn from the accepted letters, and each takes two characters of the string |
| CodeGen.PrintArgs | backend/src/compiler/codegen/mips_generator.js:343-361 | printing the pairs of specifiers and arguments appends code and takes no label |
| CodeGen.GenPrintf | backend/src/compiler/codegen/mips_generator.js:336-376 | printf appends code, takes no label, and fails only on an undefined variable |
| CodeGen.ScanArgs | backend/src/compiler/codegen/mips_generator.js:384-398 | reading into the pairs of specifiers and names appends code and takes no label |
| CodeGen.GenScanf | backend/src/compiler/codegen/mips_generator.js:378-399 | scanf appends code, takes no label, and fails only on an undefined variable |
| CodeGen.GenReturn | backend/src/compiler/codegen/mips_generator.js:401-419 | return appends code and takes no label |
| CodeGen.GenFunction | backend/src/compiler/codegen/mips_generator.js:93-153 | a function's code extends the text; failure only on an undefined variable |
| CodeGen.GenFunctions | backend/src/compiler/codegen/mips_generator.js:71-73 | the functions' code extends the text in order |
| CodeGen.FindMain | backend/src/compiler/codegen/mips_generator.js:65 | the function found is one of the program's and is named main; none is found only when no function is named main |
| CodeGen.NonMain | backend/src/compiler/codegen/mips_generator.js:71 | the functions kept are the program's and none of them is named main |
| CodeGen.GenTopLevel | backend/src/compiler/codegen/mips_generator.js:84-89 | a program without functions gets its top-level statements under main, extending the text |
| CodeGen.TextSection | backend/src/compiler/codegen/mips_generator.js:55-91 | the text section extends the text; failure only on an undefined variable |
| CodeGen.Generate | backend/src/compiler/codegen/mips_generator.js:20-24 | generation fails only with the "Undefined variable" message for a name missing from the symbol table |
| Generator.Prepend | backend/src/compiler/codegen/mips_generator.js:598-603 | putting nothing in front of an argument list leaves it unchanged |
| Generator.PrependTwice | backend/src/compiler/codegen/mips_generator.js:598-603 | collecting argument registers one at a time gives the same list as collecting them together |
| Generator.MIPSGenerator.constructor | backend/src/compiler/codegen/mips_generator.js:4-18 | a new generator holds the program and the table, a fresh allocator, empty sections and a zero label counter |
| Generator.MIPSGenerator.Emit | backend/src/compiler/codegen/mips_generator.js:697-702 | emit appends one line to the text section and changes nothing else |
| Generator.MIPSGenerator.EmitLines | backend/src/compiler/codegen/mips_generator.js:697-702 | several emits append their lines in order and change nothing else |
| Generator.MIPSGenerator.NewLabel | backend/src/compiler/codegen/mips_generator.js:704-706 | the label is the prefix, an underscore and the old counter; the counter goes up by one and nothing else changes |
| Generator.MIPSGenerator.GenerateExpression | backend/src/compiler/codegen/mips_generator.js:423-446 | the new text, label counter and allocator state and the result register are those of CodeGen.GenExpr on the old state |
| Generator.MIPSGenerator.GenerateLiteral | backend/src/compiler/codegen/mips_generator.js:448-473 | a literal's code and register are those of CodeGen.GenExpr |
| Generator.MIPSGenerator.GenerateBinary | backend/src/compiler/codegen/mips_generator.js:479-548 | the generator's state and result after a binary expression are those of CodeGen.GenBinary |
| Generator.MIPSGenerator.GenerateUnary | backend/src/compiler/codegen/mips_generator.js:550-578 | the state and result after a unary expression are those of CodeGen.GenUnary |
| Generator.MIPSGenerator.GenerateFunctionCall | backend/src/compiler/codegen/mips_generator.js:580-627 | the state and result after a call are those of CodeGen.GenCall |
| Generator.MIPSGenerator.GenerateArguments | backend/src/compiler/codegen/mips_generator.js:594-603 | the argument loop leaves the state and register list of CodeGen.GenArgs with a limit of four |
| Generator.MIPSGenerator.LoadVariable | backend/src/compiler/codegen/mips_generator.js:631-661 | loading a variable leaves the state and result of CodeGen.LoadVariable |
| Generator.MIPSGenerator.StoreVariable | backend/src/compiler/codegen/mips_generator.js:663-689 | storing a variable leaves the state of CodeGen.StoreVariable, or its error |
| Generator.MIPSGenerator.GenerateStatement | backend/src/compiler/codegen/mips_generator.js:157-201 | a statement leaves the state of CodeGen.GenStmt, or its error |
| Generator.MIPSGenerator.GenerateSimple | backend/src/compiler/codegen/mips_generator.js:157-201 | a non-control statement leaves the state of CodeGen.GenSimple |
| Generator.MIPSGenerator.GenerateStatements | backend/src/compiler/codegen/mips_generator.js:157-201 | the loop over a block leaves the state of CodeGen.GenStmts, stopping at the first error |
| Generator.MIPSGenerator.GenerateDeclaration | backend/src/compiler/codegen/mips_generator.js:203-209 | a declaration leaves the state of CodeGen.GenDeclaration |
| Generator.MIPSGenerator.GenerateAssignment | backend/src/compiler/codegen/mips_generator.js:211-246 | an assignment leaves the state of CodeGen.GenAssignment |
| Generator.MIPSGenerator.GenerateCompound | backend/src/compiler/codegen/mips_generator.js:218-245 | a compound assignment leaves the state of CodeGen.GenCompound |
| Generator.MIPSGenerator.Combine | backend/src/compiler/codegen/mips_generator.js:219-244 | combining for a compound assignment leaves the state and register of CodeGen.Combine |
| Generator.MIPSGenerator.GenerateIf | backend/src/compiler/codegen/mips_generator.js:248-273 | an if leaves the state of CodeGen.GenIf |
| Generator.MIPSGenerator.GenerateIfBranches | backend/src/compiler/codegen/mips_generator.js:255-272 | the branches of an if leave the state of CodeGen.GenIfBranches |
| Generator.MIPSGenerator.GenerateElse | backend/src/compiler/codegen/mips_generator.js:266-270 | an else part leaves the state of CodeGen.GenElse |
| Generator.MIPSGenerator.GenerateFor | backend/src/compiler/codegen/mips_generator.js:275-304 | a for loop leaves the state of CodeGen.GenFor |
| Generator.MIPSGenerator.GenerateForRest | backend/src/compiler/codegen/mips_generator.js:288-303 | the rest of a for loop leaves the state of CodeGen.GenForRest |
| Generator.MIPSGenerator.GenerateOptStatement | backend/src/compiler/codegen/mips_generator.js:282-300 | an optional init or update leaves the state of CodeGen.GenOptStmt |
| Generator.MIPSGenerator.GenerateLoopTest | backend/src/compiler/codegen/mips_generator.js:289-292 | a for loop's test leaves the state of CodeGen.GenLoopTest |
| Generator.MIPSGenerator.GenerateWhile | backend/src/compiler/codegen/mips_generator.js:306-320 | a while loop leaves the state of CodeGen.GenWhile |
| Generator.MIPSGenerator.GenerateDoWhile | backend/src/compiler/codegen/mips_generator.js:322-334 | a do-while loop leaves the state of CodeGen.GenDoWhile |
| Generator.MIPSGenerator.GeneratePrintf | backend/src/compiler/codegen/mips_generator.js:336-376 | printf leaves the state of CodeGen.GenPrintf |
| Generator.MIPSGenerator.GenerateScanf | backend/src/compiler/codegen/mips_generator.js:378-399 | scanf leaves the state of CodeGen.GenScanf |
| Generator.MIPSGenerator.GenerateReturn | backend/src/compiler/codegen/mips_generator.js:401-419 | return leaves the state of CodeGen.GenReturn |
| Generator.MIPSGenerator.GenerateFunction | backend/src/compiler/codegen/mips_generator.js:93-153 | a function leaves the state of CodeGen.GenFunction and, on success, the generator back outside any function |
| Generator.MIPSGenerator.EnterFunction | backend/src/compiler/codegen/mips_generator.js:93-130 | entering a function resets the temporaries, records the function as current and appends its header, prologue and parameter stores |
| Generator.MIPSGenerator.EmitParameterBlock | backend/src/compiler/codegen/mips_generator.js:113-130 | the parameter block appends CodeGen.ParamBlock and nothing else changes |
| Generator.MIPSGenerator.StoreParameters | backend/src/compiler/codegen/mips_generator.js:116-128 | the parameter loop appends one store per parameter in the first four, and nothing else changes |
| Generator.MIPSGenerator.GenerateTextSection | backend/src/compiler/codegen/mips_generator.js:55-91 | the text section leaves the state of CodeGen.TextSection and keeps the data section |
| Generator.MIPSGenerator.GenerateFunctions | backend/src/compiler/codegen/mips_generator.js:71-73 | the loop over the non-main functions leaves the state of CodeGen.GenFunctions |
| Generator.MIPSGenerator.GenerateDataSection | backend/src/compiler/codegen/mips_generator.js:28-51 | the data section gains exactly CodeGen.DataSection of the table, and the text and labels do not change |
| Generator.MIPSGenerator.PushGlobals | backend/src/compiler/codegen/mips_generator.js:34-45 | the loop over the globals appends their data lines in order |
| Generator.MIPSGenerator.Generate | backend/src/compiler/codegen/mips_generator.js:20-24 | generate returns exactly CodeGen.Generate of the table and program, and on success its sections are the data section and text section of the spec |
| Generator.MIPSGenerator.GetStats | backend/src/compiler/codegen/mips_generator.js:722-730 | the stats count the data and text lines, their sum, the labels made and the allocator's uses |
| CodegenFacts.LabelNamesDiffer | backend/src/compiler/codegen/mips_generator.js:704-706 | labels made at different counter values differ whatever their prefixes |
| CodegenFacts.SeparatorAgainstDigit | backend/src/compiler/codegen/mips_generator.js:704-706 | a label whose number has fewer digits cannot equal one with more digits |
| CodegenFacts.MulBeforeAdd | backend/src/compiler/codegen/mips_generator.js:479-492 | for a + b * c the operands are computed in order, then the mul of b and c, then the add of a and the product |
| CodegenFacts.LiteralCode | backend/src/compiler/codegen/mips_generator.js:448-455 | a number literal is one li into the next temporary |
| CodegenFacts.UnknownNameFails | backend/src/compiler/codegen/mips_generator.js:631-689 | loading or storing a name the table does not hold fails with "Undefined variable 'name'" |
| CodegenFacts.PushAllShape | backend/src/compiler/codegen/mips_generator.js:584-590 | each caller-saved register gets a stack-pointer decrement and then its store |
| CodegenFacts.PopAllShape | backend/src/compiler/codegen/mips_generator.js:614-619 | the restores run in reverse order, each load followed by an increment |
| CodegenFacts.CallerSavedBalanced | backend/src/compiler/codegen/mips_generator.js:584-619 | the register pushed i-th is popped i-th from the end, so the saves and restores nest |
| CodegenFacts.MoveArgsShape | backend/src/compiler/codegen/mips_generator.js:606-608 | the k-th argument register is moved into the k-th argument register $a |
| CodegenFacts.CallSequence | backend/src/compiler/codegen/mips_generator.js:580-627 | a call is: a comment, the saves, at most four arguments, the moves, jal, the restores and the copy of $v0 into the result |
| CodegenFacts.CallSteps | backend/src/compiler/codegen/mips_generator.js:580-627 | the argument registers and the result register of a call are those of the argument loop and one allocation after the jal |
| CodegenFacts.PrintArgsPairs | backend/src/compiler/codegen/mips_generator.js:343-361 | printf pairs specifiers with arguments up to the shorter of the two |
| CodegenFacts.ExtraSpecsIgnored | backend/src/compiler/codegen/mips_generator.js:343-361 | specifiers without an argument emit nothing |
| CodegenFacts.ExtraExprsIgnored | backend/src/compiler/codegen/mips_generator.js:343-361 | arguments without a specifier emit nothing |
| CodegenFacts.PrintArgsCons | backend/src/compiler/codegen/mips_generator.js:343-361 | the first pair is printed first, then the rest |
| CodegenFacts.ScanArgsPairs | backend/src/compiler/codegen/mips_generator.js:384-398 | scanf pairs specifiers with names up to the shorter of the two |
| CodegenFacts.ScanfInt | backend/src/compiler/codegen/mips_generator.js:378-399 | scanf of %d into an int scalar is the read-int syscall and a store of $v0 |
| CodegenFacts.ReturnEndsWithExit | backend/src/compiler/codegen/mips_generator.js:401-419 | a return starts with its comment and ends with the exit syscall in main and the epilogue elsewhere |
| CodegenFacts.IfBranchTarget | backend/src/compiler/codegen/mips_generator.js:248-273 | the if's beq goes to the else label exactly when there is an else block, and the end label, distinct from it, closes the statement |
| CodegenFacts.WhileShape | backend/src/compiler/codegen/mips_generator.js:306-320 | a while loop is its start label, the test, a beq to the end label, the body, a jump back and the end label; the two labels differ |
| CodegenFacts.DoWhileShape | backend/src/compiler/codegen/mips_generator.js:322-334 | a do-while loop ends with a bne back to its start label and then the end label; the two labels differ |
| CodegenFacts.ForEnds | backend/src/compiler/codegen/mips_generator.js:275-304 | a for loop ends with a jump back to its start label and then its end label; the two differ |
| CodegenFacts.EndsWithAppend | backend/src/compiler/codegen/mips_generator.js:697-702 | text ends with whatever was appended last |
| CodegenFacts.FunctionFrame | backend/src/compiler/codegen/mips_generator.js:93-153 | a function starts with its label and, outside main, the prologue; it ends with the exit syscall in main and the epilogue elsewhere |
| CodegenFacts.FunctionBody | backend/src/compiler/codegen/mips_generator.js:93-153 | a function is its entry lines, its body, then its exit lines |
| CodegenFacts.FrameOfParts | backend/src/compiler/codegen/mips_generator.js:93-153 | a prefix of the entry stays a prefix, and the exit stays the ending, when more code is added in between |
| CodegenFacts.ParamStores | backend/src/compiler/codegen/mips_generator.js:116-128 | the first four parameters are stored, the k-th from the k-th argument register, with sw or sb by type |
| CodegenFacts.MainFirst | backend/src/compiler/codegen/mips_generator.js:55-68 | when there is a main, its label comes right after the text header |
| CodegenFacts.StubWithoutMain | backend/src/compiler/codegen/mips_generator.js:76-81 | without a main among the functions, the text ends with the stub main that exits |
| CodegenFacts.TopLevelOnly | backend/src/compiler/codegen/mips_generator.js:84-89 | without functions, the text is main, the top-level statements and the exit syscall |
| CodegenFacts.EmptyProgram | backend/src/compiler/codegen/mips_generator.js:20-91 | an empty program compiles to the data section and a main that only exits |
| CodegenFacts.OneLinePerGlobal | backend/src/compiler/codegen/mips_generator.js:34-45 | every array and every int or char global gets exactly one data line, in order, of the right directive and size |
| CodegenFacts.VoidScalarDropped | backend/src/compiler/codegen/mips_generator.js:34-45 | a void scalar global gets no data line |
| CodegenFacts.GlobalAppended | backend/src/compiler/codegen/mips_generator.js:34-45 | the data lines of one more global follow those of the earlier ones |
| CodegenFacts.ArraySpace | backend/src/compiler/codegen/mips_generator.js:35-37 | an int array of n elements reserves 4n bytes and a char array n |
| CodegenFacts.NulAsWritten | backend/src/compiler/codegen/mips_generator.js:456-467 | as written, the literal '\0' loads 48; the corrected code loads 0 |
| CodegenFacts.CharCodesAgreeExceptNul | backend/src/compiler/codegen/mips_generator.js:456-467 | the written and corrected character codes differ exactly for a literal starting with the escape \0 |
| OperatorFacts.ZeroBits | backend/src/execution/executor.js:231-239 | bitwise and, or and xor of zero and zero is zero at any width |
| OperatorFacts.TruthBits | backend/src/execution/executor.js:231-239 | on one-bit values the bitwise operations are the boolean ones |
| OperatorFacts.XorTruth | backend/src/execution/executor.js:240-242 | xor with 1 flips a truth value |
| OperatorFacts.FlipBit | backend/src/execution/executor.js:240-242 | 32-bit xor of a truth value with 1 is its negation |
| OperatorFacts.OrZero | backend/src/execution/executor.js:234-236 | a bitwise or is zero exactly when both operands are zero |
| OperatorFacts.Classify | backend/src/execution/executor.js:200-297 | each opcode the operator sequences use is one that writes a register, in its family |
| OperatorFacts.ArithmeticFamily | backend/src/execution/executor.js:202-228 | the arithmetic opcodes compute their value in one place |
| OperatorFacts.LogicalFamily | backend/src/execution/executor.js:231-251 | the logical and comparison opcodes compute their value in one place |
| OperatorFacts.DispatchWrite | backend/src/execution/executor.js:200-297 | an opcode that writes a register stores its value truncated to 32 bits into the destination and changes nothing else |
| OperatorFacts.ArgParses | backend/src/execution/executor.js:241 | an immediate operand is parsed from the fourth field |
| OperatorFacts.SubValue | backend/src/execution/executor.js:208-210 | sub computes the difference of its registers |
| OperatorFacts.SltValue | backend/src/execution/executor.js:243-245 | slt computes 1 when the first register is less, else 0 |
| OperatorFacts.SltuValue | backend/src/execution/executor.js:246-248 | sltu compares the unsigned views |
| OperatorFacts.SltiuValue | backend/src/execution/executor.js:249-251 | sltiu compares the unsigned view with the immediate |
| OperatorFacts.XoriValue | backend/src/execution/executor.js:240-242 | xori computes the 32-bit xor with the immediate |
| OperatorFacts.AndValue | backend/src/execution/executor.js:231-233 | and computes the 32-bit bitwise and |
| OperatorFacts.OrValue | backend/src/execution/executor.js:234-236 | or computes the 32-bit bitwise or |
| OperatorFacts.UnsignedZero | backend/src/execution/executor.js:246-251 | the unsigned view of a word is below 1 exactly when the word is 0, and above 0 exactly when it is not |
| OperatorFacts.DispatchSub | backend/src/execution/executor.js:208-210 | sub writes the wrapped difference into the destination |
| OperatorFacts.DispatchSlt | backend/src/execution/executor.js:243-245 | slt writes the signed comparison |
| OperatorFacts.DispatchNonZero | backend/src/execution/executor.js:246-248 | sltu with $zero first writes 1 exactly when the register is not 0 |
| OperatorFacts.NonZeroValue | backend/src/execution/executor.js:246-248 | the value of sltu with $zero first is the non-zero test |
| OperatorFacts.DispatchIsZero | backend/src/execution/executor.js:249-251 | sltiu with 1 writes 1 exactly when the register is 0 |
| OperatorFacts.DispatchFlip | backend/src/execution/executor.js:240-242 | xori with 1 on a truth value writes its negation |
| OperatorFacts.DispatchAnd | backend/src/execution/executor.js:231-233 | and writes the bitwise and |
| OperatorFacts.DispatchOr | backend/src/execution/executor.js:234-236 | or writes the bitwise or |
| OperatorFacts.WrappedDifference | backend/src/execution/executor.js:208-210 | the wrapped difference of two words is 0 exactly when they are equal |
| OperatorFacts.EqualTest | backend/src/execution/executor.js:208-210 | testing the wrapped difference against 0 is testing equality |
| OperatorFacts.WrittenTwice | backend/src/execution/executor.js:441-450 | the second write to a register wins |
| OperatorFacts.WrittenOperands | backend/src/execution/executor.js:441-450 | after a write the destination holds the value and remains a valid operand |
| OperatorFacts.IsZeroAfterWrite | backend/src/compiler/codegen/mips_generator.js:512-514 | the second instruction of the equality sequence writes 1 exactly when the difference is 0 |
| OperatorFacts.NonZeroAfterWrite | backend/src/compiler/codegen/mips_generator.js:515-517 | the second instruction of the inequality and logical sequences writes 1 exactly when the first result is not 0 |
| OperatorFacts.FlipAfterWrite | backend/src/compiler/codegen/mips_generator.js:506-511 | the second instruction of the at-most and at-least sequences negates the comparison |
| OperatorFacts.EqualitySequence | backend/src/compiler/codegen/mips_generator.js:512-514 | the == sequence leaves 1 when the operands are equal, else 0 |
| OperatorFacts.InequalitySequence | backend/src/compiler/codegen/mips_generator.js:515-517 | the != sequence leaves 1 when the operands differ, else 0 |
| OperatorFacts.AtMostSequence | backend/src/compiler/codegen/mips_generator.js:506-508 | the <= sequence leaves 1 when the left operand is at most the right, else 0 |
| OperatorFacts.AtLeastSequence | backend/src/compiler/codegen/mips_generator.js:509-511 | the >= sequence leaves 1 when the left operand is at least the right, else 0 |
| OperatorFacts.Pow2Sum | backend/src/execution/executor.js:231-239 | powers of two multiply by adding exponents |
| OperatorFacts.WordSpan | backend/src/execution/executor.js:231-239 | 32 bits span 2 to the 32 values |
| OperatorFacts.SignedZero | backend/src/execution/executor.js:449 | a word is 0 signed exactly when it is 0 unsigned |
| OperatorFacts.OrWord | backend/src/execution/executor.js:234-236 | the or of two 32-bit words is 0 exactly when both are |
| OperatorFacts.OrOfWords | backend/src/execution/executor.js:234-236 | the 32-bit or of two signed words is 0 exactly when both are |
| OperatorFacts.AndTruth | backend/src/execution/executor.js:231-233 | and on truth values is logical and |
| OperatorFacts.OrSequence | backend/src/compiler/codegen/mips_generator.js:524-526 | the logical-or sequence leaves 1 when either operand is not 0, else 0 |
| OperatorFacts.AndSequence | backend/src/compiler/codegen/mips_generator.js:521-523 | the logical-and sequence leaves 1 when both operands are 1, on operands that are truth values |
| OperatorFacts.AndSequenceOnTwoAndOne | backend/src/compiler/codegen/mips_generator.js:521-523 | on operands 2 and 1, both true in C, the logical-and sequence leaves 0, because it uses the bitwise and |
| OperatorFacts.NotInstruction | backend/src/compiler/codegen/mips_generator.js:558-559 | the ! instruction writes 1 exactly when its operand is 0 |
| OperatorFacts.NegateInstruction | backend/src/compiler/codegen/mips_generator.js:556-557 | unary minus writes the 32-bit negation |
| OperatorFacts.NorIgnored | backend/src/compiler/codegen/mips_generator.js:560-561 | unary ~ emits nor, which the simulator skips, so the result register is not written |
| Machine.InitialRegisters | backend/src/execution/executor.js:13-14 | the machine has 32 registers |
| Machine.SetReg | backend/src/execution/executor.js:441-450 | a register write keeps the register file at 32 entries |
| Machine.WordEnd | backend/src/execution/executor.js:341 | the end of a word-character run: every character before it is a letter, digit or underscore, and the one at it is not |
| Machine.DigitEnd | backend/src/execution/executor.js:341 | the end of a run of digits, which is maximal |
| Machine.SpaceEnd | backend/src/execution/executor.js:341 | the end of a run of whitespace, which is maximal |
| Machine.OperandAt | backend/src/execution/executor.js:358 | an offset(register) operand is only found in text holding an opening parenthesis |
| Machine.FindOperand | backend/src/execution/executor.js:358 | the first offset(register) match needs an opening parenthesis in the text |
| Machine.MemFormAt | backend/src/execution/executor.js:341-347 | the memory form of an instruction is only matched in text holding an opening parenthesis |
| Machine.FindMemForm | backend/src/execution/executor.js:341-347 | the first match of the memory form needs an opening parenthesis |
| Machine.FieldEnd | backend/src/execution/executor.js:350 | a field runs up to the next whitespace or comma and contains none |
| Machine.Fields | backend/src/execution/executor.js:350 | splitting on whitespace and commas and dropping empties leaves only non-empty fields |
| Machine.FindLabelFrom | backend/src/execution/executor.js:418-425 | the index found is the first label entry with that name; the error "Label not found" is returned exactly when no entry is such a label |
| Machine.WriteRegister | backend/src/execution/executor.js:200-297 | an instruction that writes a register leaves the program, labels and data segment unchanged |
| Machine.Divide | backend/src/execution/executor.js:214-222 | div only changes the lo and hi registers |
| Machine.Store | backend/src/execution/executor.js:276-283 | sw and sb leave the program unchanged |
| Machine.Branch | backend/src/execution/executor.js:299-309 | beq and bne leave the program unchanged |
| Machine.JumpAndLink | backend/src/execution/executor.js:313-316 | jal leaves the program unchanged, even when the label is missing |
| Machine.Units | backend/src/execution/executor.js:391 | the output of a string has one code unit per character |
| Machine.StringAt | backend/src/execution/executor.js:384-393 | reading a string from memory reads at most the character limit |
| Machine.Syscall | backend/src/execution/executor.js:376-413 | a syscall leaves the program unchanged |
| Machine.Dispatch | backend/src/execution/executor.js:200-330 | executing any opcode leaves the program unchanged |
| Machine.ExecuteInstruction | backend/src/execution/executor.js:190-334 | executing one line leaves the program unchanged, also when it throws |
| Machine.SkipLabels | backend/src/execution/executor.js:166-171 | skipping label entries stops at the first instruction entry or past the end, passing only labels |
| Machine.Step | backend/src/execution/executor.js:160-185 | a step leaves the program unchanged |
| Machine.Advance | backend/src/execution/executor.js:177-184 | after an instruction, one trace entry is recorded and pc moves to the next entry; nothing else changes |
| Machine.Counted | backend/src/execution/executor.js:144 | the loop of execute counts one more instruction |
| Machine.Run | backend/src/execution/executor.js:138-145 | the loop of execute keeps 32 registers and the program |
| Machine.Execute | backend/src/execution/executor.js:133-155 | execute keeps 32 registers |
| Machine.Steps | backend/src/execution/executor.js:524-527 | stepping n times keeps 32 registers |
| Machine.Fewer | backend/src/execution/executor.js:524 | the step-mode loop's remaining count goes down |
| Machine.LineEnd | backend/src/execution/executor.js:101 | the end of the current line lies within the text |
| Machine.LastQuote | backend/src/execution/executor.js:101 | the greedy match of a quoted string ends at a double quote inside the range |
| Machine.Lines | backend/src/execution/executor.js:58 | the program has one line per newline-separated piece |
| MachineFacts.OnlyZeroIsZero | backend/src/execution/executor.js:17-28 | only $zero maps to register 0 |
| MachineFacts.WriteThenRead | backend/src/execution/executor.js:430-450 | writing a register other than $zero then reading it gives the value truncated to 32 bits; other registers are unchanged |
| MachineFacts.ZeroIgnoresWrites | backend/src/execution/executor.js:446 | writes to $zero change nothing |
| MachineFacts.UnknownRegisterThrows | backend/src/execution/executor.js:430-450 | reading or writing a name that is not a register throws "Unknown register" |
| MachineFacts.WriteKeepsRegisters | backend/src/execution/executor.js:441-450 | register writes keep $zero at 0 and every register a 32-bit value |
| MachineFacts.ByteDecomposition | backend/src/execution/executor.js:455-470 | a word is the sum of its four bytes at their weights, plus what lies above 32 bits |
| MachineFacts.SameResidue | backend/src/execution/executor.js:449 | numbers congruent modulo 2 to the 32 truncate to the same 32-bit value |
| MachineFacts.WordRoundTrip | backend/src/execution/executor.js:455-470 | loading a word just stored at the same address gives the stored value as a signed 32-bit number |
| MachineFacts.WordLittleEndian | backend/src/execution/executor.js:465-470 | storeWord writes the low byte first, puts bytes in the four addresses and leaves every other address alone |
| MachineFacts.ShiftResidue | backend/src/execution/executor.js:466-469 | adding multiples of 256 does not change the low byte |
| MachineFacts.ByteRoundTrip | backend/src/execution/executor.js:475-484 | loading a byte just stored gives its low 8 bits, and other addresses are unchanged |
| MachineFacts.StoreCharsBelow | backend/src/execution/executor.js:106-109 | storing a string does not touch addresses below it |
| MachineFacts.StringRoundTrip | backend/src/execution/executor.js:99-111 | a string of byte characters stored with its terminator reads back as the same characters |
| MachineFacts.PrintStoredString | backend/src/execution/executor.js:383-395 | the print-string syscall outputs a string stored at $a0 |
| MachineFacts.PrintIntReadsBack | backend/src/execution/executor.js:380-382 | the print-int syscall outputs text that parses back to $a0 |
| MachineFacts.SyscallCodes | backend/src/execution/executor.js:376-413 | exit stops the machine, the read codes set $v0 to 0, and an unknown code changes nothing |
| MachineFacts.DivideLoHi | backend/src/execution/executor.js:214-222 | division by 0 changes nothing; otherwise lo is the floored quotient and hi the truncated remainder, and `lo * b + hi` is the dividend, or the dividend minus the divisor when the remainder is non-zero and the operands differ in sign |
| MachineFacts.FloorAndRemainder | backend/src/execution/executor.js:219-220 | for every non-zero divisor, the floored quotient and the truncated remainder recombine to the dividend, except when the remainder is non-zero and the operands differ in sign, where they fall short by the divisor |
| MachineFacts.PositiveDivisor | backend/src/execution/executor.js:219-220 | the same recombination for a positive divisor |
| MachineFacts.FloorNegate | backend/src/execution/executor.js:219 | `Math.floor(a / b)` is unchanged when both operands change sign |
| MachineFacts.FieldsSkip | backend/src/execution/executor.js:350 | leading separators do not add fields |
| MachineFacts.FieldsFirst | backend/src/execution/executor.js:350 | a field followed by separators is the first field |
| MachineFacts.FieldsOne | backend/src/execution/executor.js:350 | a single token is one field |
| MachineFacts.OperandsFields | backend/src/execution/executor.js:350 | the operand list as the generator writes it splits back into its operands |
| MachineFacts.LineParses | backend/src/execution/executor.js:339-351 | an instruction line as the generator writes it parses back into its opcode and operands and has no comment to strip |
| MachineFacts.LineFields | backend/src/execution/executor.js:350 | a generated line splits into its opcode and operands |
| MachineFacts.LineUntrimmed | backend/src/execution/executor.js:192 | a line without comment and without outer spaces is left as it is |
| MachineFacts.StepLine | backend/src/execution/executor.js:160-185 | a step on a generated line runs its opcode and operands and then advances, or stops with the error |
| MachineFacts.StepClean | backend/src/execution/executor.js:160-185 | a step on any instruction that is not a label and has no comment dispatches on its fields: on success the trace grows and pc advances past where the opcode left it, on failure the message names the instruction |
| MachineFacts.DispatchJump | backend/src/execution/executor.js:310-312 | j sets pc to one before the label entry, or throws "Label not found" |
| MachineFacts.DispatchCall | backend/src/execution/executor.js:313-316 | jal writes the next entry's index to $ra before jumping |
| MachineFacts.DispatchReturn | backend/src/execution/executor.js:317-319 | jr $ra sets pc to one before $ra |
| MachineFacts.DispatchBranch | backend/src/execution/executor.js:299-309 | beq and bne jump only when the registers are equal, respectively different |
| MachineFacts.BranchOnRegisters | backend/src/execution/executor.js:299-309 | a branch that is taken jumps to the label or throws, and one not taken changes nothing |
| MachineFacts.JumpLandsOnLabel | backend/src/execution/executor.js:310-312 | after j, pc is at the label entry and registers and memory are unchanged; a missing label throws without change |
| MachineFacts.CallSetsReturnAddress | backend/src/execution/executor.js:313-316 | jal writes $ra even when the label is missing, and lands on the label |
| MachineFacts.ReturnJumps | backend/src/execution/executor.js:317-319 | after jr $ra the pc is the value of $ra, with registers and memory unchanged |
| MachineFacts.CallReturns | backend/src/execution/executor.js:313-319 | a jr $ra reached with $ra as jal left it continues at the entry after the jal |
| MachineFacts.BranchLands | backend/src/execution/executor.js:299-309 | beq and bne land on the label when the condition holds, on the next entry otherwise, and throw on a missing label |
| Executor.Simulator.constructor | backend/src/execution/executor.js:7-9 | a new simulator is in the reset state |
| Executor.Simulator.Reset | backend/src/execution/executor.js:11-50 | reset leaves the initial state: 32 zero registers with $sp at the stack top, empty memory and program, count 0 |
| Executor.Simulator.Restore | backend/src/execution/executor.js:11-50 | the simulator takes the given state |
| Executor.Simulator.StoreWord | backend/src/execution/executor.js:465-470 | storeWord changes memory as Machine.StoreWord and nothing else |
| Executor.Simulator.StoreByte | backend/src/execution/executor.js:482-484 | storeByte changes memory as Machine.StoreByte and nothing else |
| Executor.Simulator.ZeroFill | backend/src/execution/executor.js:91-93 | the space loop zeroes the bytes of the block and nothing else |
| Executor.Simulator.StoreText | backend/src/execution/executor.js:106-109 | the string loop stores the characters and the terminator and nothing else |
| Executor.Simulator.ReadDirective | backend/src/execution/executor.js:78-114 | reading one data directive changes memory, data segment and address as Machine.Directive |
| Executor.Simulator.ReadLine | backend/src/execution/executor.js:62-126 | one line of the loader changes the section, address, memory, data segment and program as Machine.LoadLine |
| Executor.Simulator.Load | backend/src/execution/executor.js:55-128 | load leaves exactly the state Machine.Load computes from the text |
| Executor.Simulator.FindLabel | backend/src/execution/executor.js:418-425 | the search loop returns Machine.FindLabel |
| Executor.Simulator.ReadString | backend/src/execution/executor.js:384-393 | the print-string loop reads Machine.StringAt from $a0 |
| Executor.Simulator.HandleSyscall | backend/src/execution/executor.js:376-413 | the syscall leaves the state of Machine.Syscall |
| Executor.Simulator.ExecuteInstruction | backend/src/execution/executor.js:190-334 | one instruction leaves the state and error of Machine.ExecuteInstruction |
| Executor.Simulator.SkipLabelMarkers | backend/src/execution/executor.js:166-171 | the recursion over label entries moves pc to Machine.SkipLabels |
| Executor.Simulator.Step | backend/src/execution/executor.js:160-185 | step leaves the state and error of Machine.Step |
| Executor.Simulator.StepHere | backend/src/execution/executor.js:160-185 | a step at an entry that is not a label agrees with Machine.Step |
| Executor.Simulator.Halt | backend/src/execution/executor.js:161-164 | a step past the last entry stops the machine, as Machine.Step says |
| Executor.Simulator.ReadMissingEntry | backend/src/execution/executor.js:166-174 | a negative pc reads a missing entry and throws, as Machine.Step says |
| Executor.Simulator.StepInstruction | backend/src/execution/executor.js:173-185 | a step on an instruction entry agrees with Machine.Step |
| Executor.Simulator.RunInstruction | backend/src/execution/executor.js:175-184 | an instruction then the trace and pc update, or the error with nothing recorded |
| Executor.Simulator.Record | backend/src/execution/executor.js:177-184 | the trace entry and the pc increment are Machine.Advance |
| Executor.Simulator.StepTimes | backend/src/execution/executor.js:524-527 | the step-mode loop leaves Machine.Steps |
| Executor.Simulator.StepRound | backend/src/execution/executor.js:524-527 | one round of the step-mode loop brings the state one step closer to the same final outcome |
| Executor.Simulator.Execute | backend/src/execution/executor.js:133-155 | execute leaves the state and error of Machine.Execute |
| Executor.Simulator.CountedStep | backend/src/execution/executor.js:139-144 | one round of the execute loop keeps the final outcome of Machine.Run and counts one instruction |
| Executor.LoadLinesNext | backend/src/execution/executor.js:62-127 | loading one more line continues the loader from where it was |
| Executor.StepsStop | backend/src/execution/executor.js:525 | a step-mode loop with no steps left, or on a stopped machine, changes nothing |
| Executor.StepsFault | backend/src/execution/executor.js:524-527 | an error in the first step ends the step-mode loop with it |
| Executor.StepsGoOn | backend/src/execution/executor.js:524-527 | a step without error continues the loop with one step less |
| Executor.StepAfterSkip | backend/src/execution/executor.js:166-171 | stepping after skipping label entries is the same as stepping |
| Executor.SkipTwice | backend/src/execution/executor.js:166-171 | skipping label entries twice is skipping once |
| Executor.StepExecutes | backend/src/execution/executor.js:173-185 | a step on an instruction executes it, then records it and moves on, unless it throws |
| Executor.SyscallOpcode | backend/src/execution/executor.js:322-324 | the syscall opcode runs the syscall |
| Executor.ExecuteMIPS | backend/src/execution/executor.js:515-554 | executeMIPS returns Machine.ExecuteMIPS of the code and mode |
| Executor.StepThrough | backend/src/execution/executor.js:521-540 | step mode returns Machine.StepMode |
| Executor.RunThrough | backend/src/execution/executor.js:543-553 | a full run returns Machine.FullRun |
| RunFacts.LimitNotThrown | backend/src/execution/executor.js:140 | the limit message is not one an instruction throws |
| RunFacts.ExecutingThrown | backend/src/execution/executor.js:332 | "Error executing" messages are instruction errors |
| RunFacts.UndefinedThrown | backend/src/execution/executor.js:166-168 | the TypeError of reading a property of a missing entry or operand counts as thrown by the instruction, not as the limit |
| RunFacts.InstructionThrows | backend/src/execution/executor.js:190-334 | every error of one instruction is an instruction error |
| RunFacts.StepThrows | backend/src/execution/executor.js:160-185 | every error of a step is an instruction error, never the limit |
| RunFacts.RunStopped | backend/src/execution/executor.js:138 | a stopped machine, or a pc past the end, ends the loop without error |
| RunFacts.RunAtLimit | backend/src/execution/executor.js:139-141 | a running machine at the limit count throws the limit error |
| RunFacts.RunStops | backend/src/execution/executor.js:143 | the loop ends with the error of a step that throws |
| RunFacts.RunGoesOn | backend/src/execution/executor.js:143-144 | after a step without error the loop goes on with one more instruction counted |
| RunFacts.RunEnds | backend/src/execution/executor.js:138-145 | the loop ends without error only when the machine stopped or pc passed the last entry, and with the limit error only at the limit count on a running program |
| RunFacts.ExecuteEnds | backend/src/execution/executor.js:133-155 | execute ends without error only on a halted program or past the end, and with the limit error only at 10000 instructions |
| RunFacts.ExitHalts | backend/src/execution/executor.js:400-402 | the exit syscall stops the machine and moves past its line without changing registers, memory or output |
| RunFacts.DispatchSyscall | backend/src/execution/executor.js:322-324 | syscall with no operands runs the syscall |
| RunFacts.DispatchExit | backend/src/execution/executor.js:400-402 | syscall with 10 in $v0 only stops the machine |
| RunFacts.ExitEndsRun | backend/src/execution/executor.js:138-145 | an exit syscall ends the loop without error after counting it |
| RunFacts.TrimKeeps | backend/src/execution/executor.js:58 | trim leaves unpadded text alone |
| RunFacts.NotDirective | backend/src/execution/executor.js:64-75 | a line not starting with a hash or a dot is neither a comment, a blank nor a section directive |
| RunFacts.SplitsAtColon | backend/src/execution/executor.js:80 | a data line splits at its colon into the name and the directive |
| RunFacts.DataLineRead | backend/src/execution/executor.js:78-114 | a data line is read as its directive under its name |
| RunFacts.DirectivesDiffer | backend/src/execution/executor.js:82-99 | the data directives are told apart by their prefixes |
| RunFacts.WordLoads | backend/src/execution/executor.js:82-86 | a .word line records the address under its name, stores a zero word and moves on four bytes |
| RunFacts.WordDirective | backend/src/execution/executor.js:82-86 | the .word branch of the loader |
| RunFacts.ByteLoads | backend/src/execution/executor.js:95-98 | a .byte line records the address, stores a zero byte and moves on one byte |
| RunFacts.ByteDirective | backend/src/execution/executor.js:95-98 | the .byte branch of the loader |
| RunFacts.FillZeroes | backend/src/execution/executor.js:91-93 | filling zeroes exactly the bytes of the block |
| RunFacts.SpaceLoads | backend/src/execution/executor.js:87-94 | a .space line records the address, zeroes its bytes and moves on by its size |
| RunFacts.SpaceDirective | backend/src/execution/executor.js:87-94 | the .space branch of the loader |
| RunFacts.LabelLineMarks | backend/src/execution/executor.js:118-121 | a text line ending in a colon adds a label entry |
| RunFacts.InstructionLineKept | backend/src/execution/executor.js:122-125 | any other text line adds an instruction entry with the line |
| Driver.LexedEndsWithEof | backend/src/compiler/lexer/tokenizer.js:439-450 | whenever tokenizing succeeds, the token list ends with the EOF token, as the parser needs |
| Driver.Compiler.constructor | backend/src/compiler/compiler.js:9-18 | a new compiler has empty source, tokens, code, errors and warnings and no tree, table or stats |
| Driver.Compiler.Compile | backend/src/compiler/compiler.js:20-144 | compile returns exactly Driver.Compilation of the source, records the source, and its fields agree with the result |
| Driver.Compiler.Reset | backend/src/compiler/compiler.js:22-29 | compile first clears every field and records the source |
| Driver.Compiler.Lexed | backend/src/compiler/compiler.js:37-42 | after tokenizing, an empty token list fails; otherwise the result is that of the remaining phases |
| Driver.Compiler.Parse | backend/src/compiler/compiler.js:48-54 | after parsing, a parse error is the failure; otherwise the result is that of the remaining phases |
| Driver.Compiler.Analyze | backend/src/compiler/compiler.js:60-64 | after analysis, its error is the failure; otherwise the table and warnings are kept and code is generated |
| Driver.Compiler.Generate | backend/src/compiler/compiler.js:75-113 | code generation gives the success result with its statistics, or the failure keeping tree, table and warnings |
| Driver.Compiler.Fail | backend/src/compiler/compiler.js:115-143 | a failure reports the message, the phase its message is classified as, no code, and the tokens, tree, table and warnings reached |
| Driver.Lex | backend/src/compiler/compiler.js:36-37 | tokenizing returns Lexer.TokenStream of the source |
| Driver.ParseTokens | backend/src/compiler/compiler.js:48-49 | parsing returns Grammar.ParseProgram of the tokens |
| Driver.AnalyzeTree | backend/src/compiler/compiler.js:60-61 | analysis returns Analysis.AnalyzeProgram from the empty state |
| Driver.GenerateCode | backend/src/compiler/compiler.js:75-77 | generation returns CodeGen.Generate and, on success, the number of data and text lines |
| Driver.CompileToMIPS | backend/src/compiler/compiler.js:166-175 | the convenience function returns Driver.Compilation of the source, as a fresh compiler does |
| DriverFacts.LacksLetter | backend/src/compiler/compiler.js:147-160 | a message without some letter of a keyword does not mention the keyword |
| DriverFacts.LacksPair | backend/src/compiler/compiler.js:147-160 | a message without some adjacent pair of a keyword's letters does not mention it |
| DriverFacts.MentionsLead | backend/src/compiler/compiler.js:147 | a message starting with a keyword, whatever the case of its first letter, mentions it |
| DriverFacts.AvoidsConcat | backend/src/compiler/compiler.js:147-160 | a letter missing from two texts is missing from their concatenation |
| DriverFacts.NumberAvoids | backend/src/compiler/compiler.js:147-160 | a number's text contains no letter |
| DriverFacts.PositionAvoids | backend/src/compiler/lexer/tokenizer.js:429 | the "line:column" part of a message contains no letter |
| DriverFacts.MessageAvoids | backend/src/compiler/lexer/tokenizer.js:429 | a message text and its position together lack a letter both lack |
| DriverFacts.MessageLacksPair | backend/src/compiler/lexer/tokenizer.js:429 | a message text and its position together lack a letter pair the text lacks |
| DriverFacts.AvoidsByCase | backend/src/compiler/compiler.js:147 | a text lacking a letter in both cases lacks it after lower-casing |
| DriverFacts.Unclassified | backend/src/compiler/compiler.js:146-163 | a message without the letters of the phase keywords, nor "register", is classified Unknown |
| DriverFacts.UnexpectedCharacterIsLexical | backend/src/compiler/lexer/tokenizer.js:429 | an unexpected character is classified as Lexical Analysis |
| DriverFacts.CharTextLacksXO | backend/src/compiler/lexer/tokenizer.js:251 | the unterminated character message lacks the letters x and o |
| DriverFacts.CharTextLacksFYG | backend/src/compiler/lexer/tokenizer.js:251 | the unterminated character message lacks the letters f, y and g |
| DriverFacts.StringTextLacksXO | backend/src/compiler/lexer/tokenizer.js:283 | the unterminated string message lacks the letters x and o |
| DriverFacts.StringTextLacksFY | backend/src/compiler/lexer/tokenizer.js:283 | the unterminated string message lacks the letters f and y |
| DriverFacts.StringTextLacksGI | backend/src/compiler/lexer/tokenizer.js:283 | the unterminated string message has no g followed by i |
| DriverFacts.UnterminatedCharIsUnknown | backend/src/compiler/lexer/tokenizer.js:251 | an unterminated character literal is classified Unknown |
| DriverFacts.UnterminatedStringIsUnknown | backend/src/compiler/lexer/tokenizer.js:283 | an unterminated string literal is classified Unknown |
| DriverFacts.LexAtErrors | backend/src/compiler/lexer/tokenizer.js:293-434 | the tokenizer fails only with its three messages |
| DriverFacts.TokenizeErrors | backend/src/compiler/lexer/tokenizer.js:439-450 | tokenizing fails only with the tokenizer's three messages |
| DriverFacts.TokenizerFailurePhase | backend/src/compiler/compiler.js:146-163 | a tokenizer failure is classified Lexical Analysis or Unknown |
| DriverFacts.ParseFailurePhase | backend/src/compiler/compiler.js:146-163 | a parse failure is classified Lexical Analysis only if its message holds those words, and Syntax Analysis otherwise |
| DriverFacts.UndefinedTextLacksXK | backend/src/compiler/semantic/semantic_analyzer.js:56 | the undefined-variable text lacks x and k |
| DriverFacts.UndefinedTextLacksHK | backend/src/compiler/semantic/semantic_analyzer.js:56 | the undefined-variable text lacks h and k |
| DriverFacts.UndefinedTextLacks | backend/src/compiler/semantic/semantic_analyzer.js:56 | the fixed parts of the undefined-variable message lack x, h and k |
| DriverFacts.UndefinedAvoids | backend/src/compiler/semantic/semantic_analyzer.js:56 | the undefined-variable message lacks a letter its name lacks |
| DriverFacts.MentionsUndefined | backend/src/compiler/semantic/semantic_analyzer.js:56 | the undefined-variable message mentions "undefined" |
| DriverFacts.UndefinedPhase | backend/src/compiler/compiler.js:146-163 | an undefined variable is classified as one of the first three phases, and as Semantic Analysis when its name has no x and no k |
| DriverFacts.ExpectedLacksHK | backend/src/compiler/compiler.js:149 | "expected" lacks h and k |
| DriverFacts.KelvinSignSpellsToken | backend/src/compiler/compiler.js:147-150 | a message quoting a token that spells "invalid to\u212Aen" with the Kelvin sign is classified as Lexical Analysis, as `toLowerCase` turns that sign into k |
| DriverFacts.UndefinedExpectedIsSyntax | backend/src/compiler/compiler.js:152 | an undefined variable named expected is classified as Syntax Analysis, because "expected" is looked for before "undefined" |
| DriverFacts.NotLexical | backend/src/compiler/compiler.js:149 | a message without h and k mentions neither "unexpected character" nor "invalid token" |
| DriverFacts.AnalysisFailurePhase | backend/src/compiler/compiler.js:146-163 | an analysis failure is classified as one of the first three phases |
| DriverFacts.GenerationFailurePhase | backend/src/compiler/compiler.js:146-163 | a generation failure is classified as one of the first three phases |
| DriverFacts.GenerationReported | backend/src/compiler/compiler.js:75-143 | after analysis the result keeps the tokens, a failure has no code and the phase of its message, and the code and statistics are those generated |
| DriverFacts.AnalysisReported | backend/src/compiler/compiler.js:60-143 | after parsing the result keeps the tokens, and a failure is the analyzer's or the generator's, with no code |
| DriverFacts.ParsingReported | backend/src/compiler/compiler.js:48-143 | after tokenizing the result keeps the tokens and reports the first failing phase's message |
| DriverFacts.CompileReports | backend/src/compiler/compiler.js:20-143 | a tokenizer error gives a failure with no tokens, tree or table; otherwise the result reports the first failing phase |
| DriverFacts.ReportedPhase | backend/src/compiler/compiler.js:146-163 | a failure after tokenizing is put down to lexical, syntax or semantic analysis |
| DriverFacts.NeverCodeGeneration | backend/src/compiler/compiler.js:115-163 | no failure of compile is classified Code Generation, and only tokenizer failures are Unknown |
| DriverFacts.EmptyProgramAnalyzed | backend/src/compiler/semantic/semantic_analyzer.js:115-135 | the empty program is analyzed into the empty table with no warnings |
| DriverFacts.EmptyProgramCompiles | backend/src/compiler/compiler.js:60-113 | the empty program compiles to a main that only exits |
| DriverFacts.EmptySourceCompiles | backend/src/compiler/compiler.js:20-113 | the empty source compiles: one EOF token, empty tree and table, no warnings, a main that only exits, and stats counting one token |

## Left out

- Lexer.KeywordKind: names that JavaScript objects inherit (`toString`, `constructor`, `valueOf`, `hasOwnProperty`, `__proto__` and the like) are plain identifiers here. In backend/src/compiler/lexer/tokenizer.js:99-111 and 195 the keyword lookup finds the inherited member and uses it as the token type, so a declaration such as `int toString;` then fails in the parser (backend/src/compiler/parser/parser.js:160).
- Machine.GetReg: a register named after an inherited object member (`$toString`, say) is reported as an unknown register. The register map lookup in backend/src/execution/executor.js:17, 431 and 442 would find the inherited member.
- Machine.SetReg: the same inherited register names are reported as unknown, for the same reason as GetReg.
- Machine.MemoryOperand: a label named after an inherited object member resolves to address 0, as an unknown label does. In backend/src/execution/executor.js:366 the data segment lookup finds the inherited member instead.
- Machine.TransferValue: `la` of a label named after an inherited object member gives 0 here, where backend/src/execution/executor.js:286 reads the inherited member.
- Machine.CharCodeAt: a character outside the Basic Multilingual Plane is one Dafny `char`, so an `.asciiz` string stores one byte for it. JavaScript strings are UTF-16, so the source stores two code units.
- Lexer.LexChar: a character literal holding one character outside the Basic Multilingual Plane, such as an emoji, is accepted here. In the source that character is two UTF-16 code units, so the closing quote is not where backend/src/compiler/lexer/tokenizer.js:233-256 looks for it and the literal is reported as unterminated.
- Lexer.Tokenizer: for the same reason, a character outside the Basic Multilingual Plane advances the column by one, where the source advances it by two code units.
- Machine.ArithmeticValue: `mul` takes the exact product before the 32-bit wrap-around. backend/src/execution/executor.js:211-212 multiplies in doubles, which round once the product reaches 2^53, so larger products are not modelled as the source computes them.
- CodeGen.NumberText: a literal at or above 2^53 is printed exactly. The source prints the rounded double (for example `1e+23`).
- Util.ParseIntDecimal: reads digits exactly, with no rounding at or above 2^53.
- Util.ToLower: lowers the ASCII capitals and the Kelvin sign, and keeps every other character, where `toLowerCase` lowers every capital letter of Unicode. The compile driver only looks for ASCII keywords in the lowered message (backend/src/compiler/compiler.js:147-160), and these are the only characters whose lower case is a plain ASCII letter. The one other character whose lower case holds one, U+0130, lowers to `i` followed by a combining dot, and no keyword ends in `i`. So Driver.FailurePhase classifies every message as the source does, even though the lowered text itself differs.
- Machine.ExecuteMIPS: takes no input data. `execute(inputData)` never reads its argument (backend/src/execution/executor.js:133, 543), and the read syscall always sets `$v0` to 0.
- Machine.ExecuteMIPS: `currentStep` is an integer or absent. A fractional, string or other non-integer value is not modelled.
- Machine.Directive: a store at a `NaN` data address (after `.space` without a size) is not modelled. It only ever writes 0 under the key `NaN`, which no instruction reads.
- The `async` marker of `executeMIPS` (backend/src/execution/executor.js:515): its body never awaits, so it is modelled as a plain function.
- console logging, including the warnings for an unknown opcode or syscall: these are side effects only.
- Display formatting: the hexadecimal memory keys and register dumps of backend/src/execution/executor.js:489-509 are modelled as maps from addresses and register numbers.
- ScopedSymbols.ScopedTable: `functionExists`, `getCurrentScopeSymbols`, `getGlobalSymbols`, `getAllFunctions` and `print` (backend/src/compiler/semantic/symbol_table.js:393-438) are not modelled. The first only tests what LookupFunction finds, the next three return Map iterators whose order is insertion order, and `print` writes to the console.
- Symbols.Table: the flat table's `print` (backend/src/compiler/semantic/semantic_analyzer.js:90-104) writes to the console and is not modelled.
- Driver.Compilation: the `line` and `column` of a failure are always `null` in the source and are not carried. A failure's `stats` is the empty object and is not carried either.
- Driver.Compilation: the `!this.ast` test (backend/src/compiler/compiler.js:52-54) can never fire, because the parser always returns a program node or throws; it has no counterpart.
- Grammar.ParseProgram: the token list must end with an `EOF` token, as the tokenizer always makes it (Driver.LexedEndsWithEof). On a list without one, the source can recurse without end on `{`.
- The HTTP service (backend/src/server.js) and the frontend are not part of this model.

## Findings

| source | as written | input that shows it | evidently intended | confidence | as-written member | corrected member |
|---|---|---|---|---|---|---|
| backend/src/compiler/codegen/mips_generator.js:463 | the escape table maps `0` to 0, which is falsy, so the logical-or fallback takes `charCodeAt(1)`, the code of the character `0` | the statement `x = '\0';` emits `li $t0, 48` | `li $t0, 0`, the code of the NUL character | not executed | CodegenFacts.NulAsWritten | CodegenFacts.CharCodesAgreeExceptNul |

The generator model (CodeGen.LiteralValue and everything built on it) uses the corrected character code CodeGen.CharCode. CodeGen.CharCodeAsWritten and CodeGen.LiteralLineAsWritten keep the code as written, and CodegenFacts.CharCodesAgreeExceptNul shows that the two differ exactly on the literals that begin with the escape `\0`.
