# dux interpreter core, modelled in Dafny

This project models the pipeline of the dux interpreter, a small tree-walking
interpreter for a Monkey-like language written in Go. It covers:

- the keyword table (`token/token.go`);
- the byte-cursor lexer (`lexer/lexer.go`);
- the Pratt parser (`src/parser/parser.go`). It is modelled over the current
  tree's token and node types, which are the ones it uses.
- the syntax tree and its canonical `String()` renderings (`ast/ast.go`);
- the object values (`object/object.go`);
- the evaluator with environments, closures and builtins
  (`evaluator/evaluator.go`, `evaluator/builtins.go`).

The repository also keeps an older snapshot under `src/`, and three of its
parts are modelled too:

- a two-keyword token table;
- a one-byte-per-call lexer;
- an evaluator with no environment, in which every failure becomes NIL.

## How the model is organised

| module | file | form |
|---|---|---|
| `GoStrings` | go_strings.dfy | Go byte strings, `string(b)`, int64 wrap-around, truncated division, `strconv.ParseInt(lit, 0, 64)`, `%d` |
| `Tokens`, `LegacyTokens` | tokens.dfy, legacy_tokens.dfy | pure keyword lookup |
| `Lexer`, `LexerProperties` | lexer.dfy, lexer_properties.dfy | class `Lexer` with the Go fields; loops proved against the function `Scan` |
| `LegacyLexer` | legacy_lexer.dfy | the same shape, for the one-byte lexer |
| `Ast`, `AstProperties` | ast.dfy, ast_properties.dfy | node datatypes, `String()` and `TokenLiteral()` |
| `ParserSpec`, `Parser`, `ParserProperties` | parser_spec.dfy, parser.dfy, parser_properties.dfy | functional specification over a parser state; class `Parser` whose methods are proved equal to it |
| `ParserForms` | parser_forms.dfy | the trees built for parameter lists, argument lists, `if` and function literals, for every input |
| `Objects`, `Builtins` | object.dfy, builtins.dfy | values and the builtin table |
| `Environments` | environment.dfy | environments as numbered frames of one heap; class `Heap` |
| `EvaluatorSpec`, `Evaluator` | evaluator_spec.dfy, evaluator.dfy | evaluation as a function with fuel; methods that update the heap proved equal to it |
| `OperatorProperties`, `EvaluatorProperties` | operator_properties.dfy, evaluator_properties.dfy | what the operators and the evaluator promise |
| `LegacyEvaluator` | legacy_evaluator.dfy | the environment-free evaluator |

### Modelling decisions

- **Values and identity.**
  - The shared instances ZERO, TRUE, FALSE and NIL are values of their own: `Zero`, `Boolean(b)` and `Nil`.
  - A zero computed at run time is `Integer(0)`, which is different from `Zero`.
  - Go's nil interface is `Null`.
  - Arrays, functions and return values carry an allocation number. This lets `==` on pointers tell two separately made objects apart (`Objects.Identical`).
- **Go run-time panics are outcomes, not preconditions.**
  - Examples: a failed type assertion, an integer division by a computed zero, too few call arguments, and calling a method on nil.
  - An evaluation yields `Normal(v)`, `Panicked(kind)`, or `OutOfFuel` once its nesting budget is spent.
- **Integers are int64.** `+`, `-`, `*` and negation wrap explicitly, and `/` truncates toward zero.

## Model

| member | source | states |
|---|---|---|
| Tokens.LookupType | token/token.go:54-70 | the result is IDENT or a keyword type, and a keyword type only for exactly that keyword's spelling |
| Tokens.LookupKeyword | token/token.go:54-62 | each of the seven keywords maps to its own token type |
| Tokens.NameInjective | token/token.go:5-47 | distinct token types have distinct names, and each name reads back as its type |
| Tokens.NameRoundTrip | token/token.go:5-47 | reading a token type's name back gives the type |
| LegacyTokens.LookupType | src/token/token.go:42-53 | the result is IDENT, FUNCTION or LET; FUNCTION exactly for "fn" and LET exactly for "let" |
| LegacyTokens.LaterLookupExtends | src/token/token.go:42-53 | the older table agrees with the current one on "fn" and "let" and on every identifier; "if", "else", "return", "true" and "false" are keywords only in the current one |
| GoStrings.ByteString | lexer/lexer.go:40-42 | Go's `string(b)`: one byte below 0x80, otherwise a two-byte UTF-8 sequence decoding to b |
| GoStrings.Wrap64 | evaluator/evaluator.go:197-222 | the int64 result is congruent to the exact value modulo 2^64 and equals it when it fits |
| GoStrings.TruncDivTruncates | evaluator/evaluator.go:197-222 | the quotient truncates toward zero: the remainder is smaller than the divisor and has the dividend's sign |
| GoStrings.DigitValue | src/parser/parser.go:96-110 | a digit's value is below 10 and equals its distance from '0' |
| GoStrings.ParseInt | src/parser/parser.go:96-110 | with no leading zero the literal parses exactly when its decimal value fits in int64; results are non-negative; "0" is 0 |
| GoStrings.OctalLiteral | src/parser/parser.go:99 | base 0 reads a leading 0 as octal: "010" is 8, and "08" and "09" fail |
| GoStrings.RangeLimit | src/parser/parser.go:99-105 | MaxInt64 parses, and MaxInt64 + 1 is a digit string that fails |
| GoStrings.Join | ast/ast.go:166-180 | joining no parts gives "" and one part gives that part |
| GoStrings.FormatNat | object/object.go:34 | the decimal rendering is digits with no leading zero |
| GoStrings.FormatInt | object/object.go:34 | the rendering is non-empty and starts with '-' exactly for negative numbers |
| GoStrings.DigitsValueOfFormat | object/object.go:34 | the digits of the rendering of n have value n |
| GoStrings.ParseFormatRoundTrip | src/parser/parser.go:96-110 | parsing the decimal rendering of a non-negative int64 gives it back |
| Lexer.SkipWhitespace | lexer/lexer.go:48-52 | skipping stops on a byte that is not a space, tab, newline or carriage return, and never moves backwards |
| Lexer.IdentifierEnd | lexer/lexer.go:54-66 | an identifier run ends at a byte that is not a letter, `_` or `?` |
| Lexer.NumberEnd | lexer/lexer.go:68-80 | a number run ends at a byte that is not a decimal digit |
| Lexer.Scan | lexer/lexer.go:95-162 | every call moves the cursor strictly forward |
| Lexer.Lexer.constructor | lexer/lexer.go:164-169 | `New` leaves the cursor on the first byte with `readPosition == position + 1` |
| Lexer.Lexer.ReadChar | lexer/lexer.go:25-35 | the cursor moves to `readPosition`, and the current byte is that input byte, or 0 past the end |
| Lexer.Lexer.PeekCharAhead | lexer/lexer.go:82-88 | the byte after the current one, or 0 past the end |
| Lexer.Lexer.EatGhostCharacters | lexer/lexer.go:48-52 | the loop leaves the cursor where `SkipWhitespace` says |
| Lexer.Lexer.ReadIdentifier | lexer/lexer.go:58-66 | the loop leaves the cursor at `IdentifierEnd` and returns the bytes passed |
| Lexer.Lexer.ReadNumber | lexer/lexer.go:72-80 | the loop leaves the cursor at `NumberEnd` and returns the bytes passed |
| Lexer.Lexer.NextToken | lexer/lexer.go:95-162 | the token returned and the new cursor are exactly `Scan` of the old cursor |
| LexerProperties.ScanAtEnd | lexer/lexer.go:26-27 | at or past the end of the input every call returns EOF with an empty literal |
| LexerProperties.ScanNulByte | lexer/lexer.go:142-144 | a NUL byte is EOF with an empty literal, and the cursor passes it |
| LexerProperties.LexNulInMiddle | lexer/lexer.go:142-144 | "a\0b" lexes as IDENT a, EOF, IDENT b: lexing goes on after a NUL byte |
| LexerProperties.SkippedIsWhitespace | lexer/lexer.go:48-52 | every byte skipped is whitespace |
| LexerProperties.IdentifierIsLetters | lexer/lexer.go:54-66 | every byte of an identifier run is a letter, `_` or `?` |
| LexerProperties.NumberIsDigits | lexer/lexer.go:68-80 | every byte of a number run is a digit |
| LexerProperties.ScanLiteralHasNoWhitespace | lexer/lexer.go:97 | no token literal contains whitespace |
| LexerProperties.ScanIdentifier | lexer/lexer.go:146-149 | from a letter, the token is the maximal letter run, typed by `LookupType` |
| LexerProperties.ScanNumber | lexer/lexer.go:150-153 | from a digit, the token is INT with the maximal digit run as its literal |
| LexerProperties.ScanTwoCharOperators | lexer/lexer.go:100-131 | `==` and `!=` are single EQUAL and NEQUAL tokens with two-byte literals, and the cursor passes both bytes |
| LexerProperties.ScanOneByteOperator | lexer/lexer.go:100-141 | a lone `=` or `!` is ASSIGN or EXCLAMATION, and each other operator or delimiter byte is its own token type, with that byte as its literal |
| LexerProperties.ScanIllegal | lexer/lexer.go:154-156 | any other byte is ILLEGAL, with `string(b)` as its literal (the byte itself below 0x80) |
| LexerProperties.ScanOneLetter | lexer/lexer.go:146-149 | a single letter followed by a non-letter is an IDENT of that letter |
| LexerProperties.LexIntLiteralsAreDigits | lexer/lexer.go:150-153 | every INT token the lexer yields has a literal that is all digits |
| LexerProperties.ScanLetterAfterSpace | lexer/lexer.go:95-149 | a space and a lone letter give an IDENT of that letter, and the cursor passes both |
| LexerProperties.ScanOperatorAfterSpace | lexer/lexer.go:95-141 | a space and a one-byte operator give that operator's token, and the cursor passes both |
| LexerProperties.LexScans | lexer/lexer.go:95-162 | lexing returns exactly the tokens of the successive scans, in order, up to the end of the input |
| LexerProperties.LexSpacedOperators | lexer/lexer.go:95-162 | `x o y p z` with one-letter operands, one-byte operators and single spaces lexes to its five tokens |
| LexerProperties.LexAddSub | parser/parser_test.go:585 | "a + b - c" lexes to IDENT a, PLUS, IDENT b, MINUS, IDENT c |
| LegacyLexer.Scan | src/lexer/lexer.go:28-55 | each call advances exactly one byte; the type is one of the eight delimiters, EOF or empty; the literal is empty or the byte itself |
| LegacyLexer.Lex | src/lexer/lexer.go:28-55 | one token per input byte |
| LegacyLexer.Lexer.constructor | src/lexer/lexer.go:57-62 | `New` leaves the cursor on the first byte |
| LegacyLexer.Lexer.ReadChar | src/lexer/lexer.go:12-22 | the cursor moves to `readPosition`, and the current byte is that input byte, or 0 past the end |
| LegacyLexer.Lexer.NextToken | src/lexer/lexer.go:28-55 | the token returned and the new cursor are exactly `Scan` of the old cursor |
| LegacyLexer.LexDelimiters | src/lexer/lexer_test.go:9-24 | "=+(){},;" lexes to the eight delimiter tokens and then EOF |
| LegacyLexer.EofAtEnd | src/lexer/lexer.go:12-22 | a NUL byte, or the end of the input, is EOF with an empty literal, and so is every later call past the end |
| LegacyLexer.UnknownBytesAreEmptyTokens | src/lexer/lexer.go:28-55 | any byte outside the table, whitespace, letters and digits included, is a token with empty type and empty literal |
| Ast.Strings | ast/ast.go:188-203 | one rendering per argument |
| Ast.IdentifierStrings | ast/ast.go:207-226 | the parameters' renderings are their names, in order |
| Ast.Program.TokenLiteral | ast/ast.go:349-355 | "" for an empty program, otherwise the first statement's token literal |
| AstProperties.ConcatAppend | ast/ast.go:230-238 | rendering a statement list splits at any point into the renderings of the parts |
| AstProperties.ProgramsConcatenate | ast/ast.go:230-347 | programs and blocks render as their statements with nothing in between, so joining statement lists joins renderings |
| AstProperties.TwoExpressionStatements | ast/ast.go:295-347 | two expression statements render as the two expressions back to back |
| AstProperties.StringsAt | ast/ast.go:188-203 | the rendering at each place in the list is that argument's rendering |
| AstProperties.StringsSnoc | ast/ast.go:188-203 | one more argument adds its rendering at the end |
| AstProperties.JoinSnoc | ast/ast.go:199 | the separator goes only between neighbours |
| AstProperties.CallRendering | ast/ast.go:188-203 | a call renders as the callee then the parenthesised arguments: `f()` and `f(x)` |
| AstProperties.CallArgumentAppended | ast/ast.go:188-203 | one more call argument renders after ", " before the closing parenthesis |
| AstProperties.CollectionRendering | ast/ast.go:152-180 | an array literal renders `[x, y]` or `[]`, and an index expression renders `(x[y])` |
| AstProperties.PrefixRendering | ast/ast.go:264-287 | prefix operators sit against their operand: `(!(-a))` and `((-a) op b)` |
| AstProperties.StatementRenderings | ast/ast.go:295-332 | `let` and `return` render as their keyword, the value and ";", with the value left out when nil; a nil expression statement renders "" |
| ParserSpec.Precedence | src/parser/parser.go:11-34 | every binding strength lies between LOWEST and CALL |
| ParserSpec.ExpectPeek | src/parser/parser.go:410-423 | succeeds exactly when the peek token has the expected type; on success it advances one token, on failure it keeps the cursor and adds one error |
| ParserSpec.ParseIntegerLiteral | src/parser/parser.go:96-110 | does not move the cursor and only appends errors |
| ParserSpec.ParseExpression | src/parser/parser.go:352-375 | never moves the cursor back and only appends errors |
| ParserSpec.ParsePrefix | src/parser/parser.go:276-360 | a prefix rule never moves the cursor back and only appends errors |
| ParserSpec.InfixLoop | src/parser/parser.go:362-372 | the infix loop never moves the cursor back and only appends errors |
| ParserSpec.ParseInfix | src/parser/parser.go:276-371 | an infix rule never moves the cursor back and only appends errors |
| ParserSpec.ParsePrefixExpression | src/parser/parser.go:112-120 | never moves the cursor back and only appends errors |
| ParserSpec.ParseGroupedExpression | src/parser/parser.go:80-90 | never moves the cursor back and only appends errors |
| ParserSpec.ParseIfExpression | src/parser/parser.go:186-211 | never moves the cursor back and only appends errors; the trees it builds are stated by the ParserForms rows below |
| ParserSpec.ParseIfCondition | src/parser/parser.go:186-200 | never moves the cursor back and only appends errors; its results are stated by ParserForms.IfConditionForms |
| ParserSpec.ParseElse | src/parser/parser.go:201-211 | never moves the cursor back and only appends errors; its results are stated by ParserForms.ElseForms |
| ParserSpec.ParseFunctionLiteral | src/parser/parser.go:168-184 | never moves the cursor back and only appends errors; its results are stated by ParserForms.FunctionLiteralForms |
| ParserSpec.ParseFunctionParameters | src/parser/parser.go:232-258 | never moves the cursor back and only appends errors; its results are stated by ParserForms.ParameterListForms |
| ParserSpec.ParametersLoop | src/parser/parser.go:244-251 | the parameter loop only appends to the identifiers collected; what it appends is stated by ParserForms.ParametersLoopCollects |
| ParserSpec.ParseInfixExpression | src/parser/parser.go:153-166 | never moves the cursor back and only appends errors |
| ParserSpec.ParseCallExpression | src/parser/parser.go:122-126 | never moves the cursor back and only appends errors |
| ParserSpec.ParseCallArguments | src/parser/parser.go:128-151 | never moves the cursor back and only appends errors |
| ParserSpec.ArgumentsLoop | src/parser/parser.go:139-144 | the argument loop only appends to the arguments collected |
| ParserSpec.ParseBlockStatement | src/parser/parser.go:213-230 | the block ends with `}` or EOF current |
| ParserSpec.BlockLoop | src/parser/parser.go:219-227 | the statement loop of a block stops only on `}` or EOF |
| ParserSpec.ParseStatement | src/parser/parser.go:425-434 | never moves the cursor back and only appends errors |
| ParserSpec.ParseLetStatement | src/parser/parser.go:314-336 | the statement is the typed nil exactly when IDENT or then `=` is missing, and then exactly one error was added |
| ParserSpec.ParseReturnStatement | src/parser/parser.go:338-350 | never moves the cursor back and only appends errors |
| ParserSpec.ParseExpressionStatement | src/parser/parser.go:377-387 | never moves the cursor back and only appends errors |
| ParserSpec.SkipSemicolons | src/parser/parser.go:331-333 | adds no error and leaves a peek that is not `;` |
| ParserSpec.ProgramLoop | src/parser/parser.go:441-448 | stops only on EOF and keeps every statement collected |
| Parser.Parser.constructor | src/parser/parser.go:276-308 | the parser starts at the first token with no errors |
| Parser.Parser.Errors | src/parser/parser.go:310-312 | returns the messages of the errors recorded |
| Parser.Parser.NextToken | src/parser/parser.go:71-74 | shifts the two-token window by one and keeps the errors |
| Parser.Parser.PeekError | src/parser/parser.go:420-423 | appends one "expected next token" error |
| Parser.Parser.NoPrefixParseFnError | src/parser/parser.go:66-69 | appends one "no prefix parse function" error |
| Parser.Parser.ExpectPeek | src/parser/parser.go:410-418 | result and new state equal `ParserSpec.ExpectPeek` |
| Parser.Parser.ParseIdentifier | src/parser/parser.go:76-78 | the identifier node for the current token |
| Parser.Parser.ParseBoolean | src/parser/parser.go:92-94 | the boolean node for the current token |
| Parser.Parser.ParseIntegerLiteral | src/parser/parser.go:96-110 | result and new state equal the specification |
| Parser.Parser.ParseExpression | src/parser/parser.go:352-375 | result and new state equal the specification |
| Parser.Parser.InfixLoop | src/parser/parser.go:362-372 | the loop's result and state equal the specification |
| Parser.Parser.ParsePrefix | src/parser/parser.go:353-360 | result and new state equal the specification |
| Parser.Parser.ParseInfix | src/parser/parser.go:363-371 | result and new state equal the specification |
| Parser.Parser.ParsePrefixExpression | src/parser/parser.go:112-120 | result and new state equal the specification |
| Parser.Parser.ParseGroupedExpression | src/parser/parser.go:80-90 | result and new state equal the specification |
| Parser.Parser.ParseIfExpression | src/parser/parser.go:186-211 | result and new state equal the specification, whose results ParserForms.IfExpressionForms, IfElseExpressionForms and the failure lemmas state |
| Parser.Parser.ParseIfCondition | src/parser/parser.go:186-200 | result and new state equal the specification, whose results ParserForms.IfConditionForms state |
| Parser.Parser.ParseElse | src/parser/parser.go:201-211 | result and new state equal the specification, whose results ParserForms.ElseForms state |
| Parser.Parser.ParseFunctionLiteral | src/parser/parser.go:168-184 | result and new state equal the specification, whose results ParserForms.FunctionLiteralForms state |
| Parser.Parser.ParseFunctionParameters | src/parser/parser.go:232-258 | result and new state equal the specification, whose results ParserForms.ParameterListForms state |
| Parser.Parser.ParametersLoop | src/parser/parser.go:244-251 | the loop's result and state equal the specification, whose results ParserForms.ParametersLoopCollects state |
| Parser.Parser.ParseInfixExpression | src/parser/parser.go:153-166 | result and new state equal the specification |
| Parser.Parser.ParseCallExpression | src/parser/parser.go:122-126 | result and new state equal the specification |
| Parser.Parser.ParseCallArguments | src/parser/parser.go:128-151 | result and new state equal the specification |
| Parser.Parser.ArgumentsLoop | src/parser/parser.go:139-144 | the loop's result and state equal the specification |
| Parser.Parser.ParseNextArgument | src/parser/parser.go:140-143 | skips the comma and parses the next argument as the specification does |
| Parser.Parser.ParseBlockStatement | src/parser/parser.go:213-230 | result and new state equal the specification |
| Parser.Parser.BlockLoop | src/parser/parser.go:219-227 | the loop's result and state equal the specification |
| Parser.Parser.ParseStatement | src/parser/parser.go:425-434 | result and new state equal the specification |
| Parser.Parser.ParseLetStatement | src/parser/parser.go:314-336 | result and new state equal the specification |
| Parser.Parser.ParseReturnStatement | src/parser/parser.go:338-350 | result and new state equal the specification |
| Parser.Parser.SkipSemicolons | src/parser/parser.go:331-333 | the loop's new state equals the specification |
| Parser.Parser.ParseExpressionStatement | src/parser/parser.go:377-387 | result and new state equal the specification |
| Parser.Parser.ParseProgram | src/parser/parser.go:436-451 | the program and final state equal `ProgramLoop` from an empty program |
| Parser.Tokenize | src/parser/parser.go:276-308 | pulling tokens until the lexer passes the input yields exactly `Lex` of the input |
| Parser.Parse | src/parser/parser.go:276-451 | lexing, parsing and the error list together equal `ParseProgram` of the lexed tokens |
| ParserProperties.PrecedenceOrder | src/parser/parser.go:11-274 | LOWEST < EQUALS < LESSGREATER < SUM < PRODUCT < PREFIX < CALL, the table entries, and LOWEST for every other token type |
| ParserProperties.BinaryOperatorStrength | src/parser/parser.go:22-34 | every binary operator binds tighter than LOWEST and looser than a prefix operator |
| ParserProperties.AtomOperand | src/parser/parser.go:76-375 | an expression starting with an atom (an identifier, a boolean, or an integer literal that parses) is that atom's node followed by the infix loop |
| ParserProperties.LoneOperand | src/parser/parser.go:362 | an atom whose peek binds no tighter than the threshold is the whole expression, and the cursor stays |
| ParserProperties.BinaryStep | src/parser/parser.go:153-372 | one loop step builds the operator node with the right side parsed at the operator's own strength |
| ParserProperties.OneOperator | src/parser/parser.go:153-375 | `a op b` is one infix node and the cursor ends on b |
| ParserProperties.FoldsLeft | src/parser/parser.go:153-372 | in `a op1 b op2 c` with op1 at least as strong as op2, the tree is `((a op1 b) op2 c)` |
| ParserProperties.TighterNestsRight | src/parser/parser.go:153-372 | with op2 stronger than op1, the tree is `(a op1 (b op2 c))` |
| ParserProperties.PrefixBindsTighter | src/parser/parser.go:112-120 | in `-a op b` the prefix takes only `a`: `((-a) op b)` |
| ParserProperties.GroupingAddsNoNode | src/parser/parser.go:80-90 | `(a)` parses to the atom itself, with no node for the parentheses |
| ParserProperties.ExpectPeekMessages | src/parser/parser.go:410-423 | on failure exactly the message "expected next token to be T, got U instead" is added; the cursor advances by one exactly on a match |
| ParserProperties.MessagesAppend | src/parser/parser.go:310-312 | the messages of an error list with one more error gain that one message at the end |
| ParserProperties.NoPrefixRule | src/parser/parser.go:66-358 | a token with no prefix rule gives the nil expression, keeps the cursor and adds "no prefix parse function for T Token Type found" |
| ParserProperties.TrailingSemicolonsSwallowed | src/parser/parser.go:331-347 | after a `let` or `return` statement no `;` is left as the peek |
| ParserProperties.ExpressionStatementOneSemicolon | src/parser/parser.go:377-387 | an expression statement passes at most one `;` |
| ParserProperties.EmptyArguments | src/parser/parser.go:131-239 | `()` is an empty argument list and an empty parameter list |
| ParserProperties.SecondArgument | src/parser/parser.go:139-144 | `, b` followed by `)` adds b and ends the loop on b |
| ParserProperties.TwoArgumentList | src/parser/parser.go:128-151 | `(a, b)` gives the two arguments, with the cursor on `)` |
| ParserProperties.TwoArguments | src/parser/parser.go:122-151 | `f(a, b)` is a call of f with the two arguments |
| ParserProperties.ProgramLoopKeepsStatements | src/parser/parser.go:436-451 | the program loop ends on EOF, keeps every error and statement already collected, and stops at once exactly when EOF is current |
| ParserProperties.FailedLetIsKept | src/parser/parser.go:314-447 | a `let` without a name adds one error, and the typed nil is still appended to the program |
| ParserProperties.LexedIntegerLiteral | src/parser/parser.go:96-110 | an INT literal from the lexer is the nil expression exactly when it does not parse, and is otherwise an integer node with the parsed value |
| ParserProperties.FoldedProgram | src/parser/parser.go:436-451 | a five-token program `a op1 b op2 c` with op1 at least as strong as op2 is one left-folded statement with no errors |
| ParserProperties.BinaryRendering | ast/ast.go:264-274 | an infix node renders as "(" left " " op " " right ")" |
| ParserProperties.SingleStatementRendering | ast/ast.go:295-347 | a one-statement program renders as its expression |
| ParserProperties.OperandRendering | ast/ast.go:258-336 | an atom's node renders as its token literal |
| ParserProperties.FoldedRendering | ast/ast.go:264-347 | the left-folded program renders as "((a op1 b) op2 c)" |
| ParserProperties.AddSubFoldsLeft | parser/parser_test.go:585 | the tokens of "a + b - c" parse with no errors and render "((a + b) - c)" |
| ParserProperties.AddSubSourceFoldsLeft | parser/parser_test.go:585 | the source text "a + b - c", lexed and then parsed, has no errors and renders "((a + b) - c)" |
| ParserForms.NamesAtAre | src/parser/parser.go:242-250 | the names collected are the tokens two apart, in order, each named by its literal |
| ParserForms.ParametersLoopCollects | src/parser/parser.go:245-251 | after n commas the loop has appended the n names that follow them, in order, and stops on the last |
| ParserForms.ParameterListForms | src/parser/parser.go:232-258 | `x1, …, xn` followed by `)` gives the n names in order with `)` current and no error; without the `)` the list is empty and exactly one error is added |
| ParserForms.ArgumentsLoopCollects | src/parser/parser.go:139-144 | the loop appends exactly the expressions parsed after each comma, in order, and stops where the last one ended |
| ParserForms.ArgumentListForms | src/parser/parser.go:128-151 | arguments that parse one after another, separated by commas, make the list in order with `)` current; without the `)` the list is empty and exactly one error is added |
| ParserForms.InfixArgument | src/parser/parser.go:139-144 | an argument `a op b` of atoms is one infix node |
| ParserForms.DigitAtom | src/parser/parser.go:96-110 | a one-digit literal other than 0 is an integer node of that digit's value |
| ParserForms.DigitArgument | src/parser/parser.go:136-137 | a one-digit literal before `,` or `)` is the whole argument |
| ParserForms.DigitInfixArgument | src/parser/parser.go:139-144 | `d1 op d2` after a comma is the infix node of the two integer literals |
| ParserForms.TwoLaterArguments | src/parser/parser.go:139-144 | two arguments after commas are appended in order |
| ParserForms.ThreeArgumentList | src/parser/parser.go:128-151 | a first argument, two more collected by the loop, and `)` give the three in order |
| ParserForms.AddCallArguments | parser/parser_test.go:838-870 | the arguments of `add(1, 2 * 3, 4 + 5)` are 1, `(2 * 3)` and `(4 + 5)` in order, with `)` current |
| ParserForms.ElseForms | src/parser/parser.go:201-211 | no `else`: no alternative and the cursor stays; `else {`: the next block is the alternative; `else` without `{`: nil and exactly one error |
| ParserForms.IfConditionForms | src/parser/parser.go:193-209 | a missing `)` or `{` after the condition gives nil and exactly one error; with both, the consequence block is parsed and the optional `else` follows |
| ParserForms.IfOpenForms | src/parser/parser.go:186-193 | a missing `(` after `if` gives nil and exactly one error; otherwise the condition is parsed from the token after `(` |
| ParserForms.IfReachesElse | src/parser/parser.go:186-202 | a well-formed `if (c) {` hands over to the optional `else` with the `if` token, the condition and the consequence block |
| ParserForms.IfExpressionForms | src/parser/parser.go:186-211 | `if (c) { … }` with no `else` is an IfExpression of c and the block with no alternative, with `}` current |
| ParserForms.IfElseExpressionForms | src/parser/parser.go:186-211 | `if (c) { … } else { … }` is an IfExpression with the second block as its alternative, with its `}` current |
| ParserForms.IfElseFailure | src/parser/parser.go:202-205 | `else` without `{` makes the whole if expression nil with exactly one error |
| ParserForms.FunctionLiteralForms | src/parser/parser.go:168-184 | a missing `(` gives nil and adds exactly one error to the errors so far; a missing `{` gives nil and adds exactly one error to those left by the parameter list, which may already hold its missing-`)` error; otherwise a FunctionLiteral of the parameters and the body block, with `}` or EOF current |
| Objects.Value.Type | object/object.go:33-43 | INTEGER exactly for the shared ZERO and fresh integers |
| Objects.Identical | evaluator/evaluator.go:153-156 | pointer identity implies equal values |
| Objects.InspectIntegers | object/object.go:33-34 | an integer's type is INTEGER; it renders in signed decimal, which parses back; ZERO renders "0" |
| Objects.TypeAndInspect | object/object.go:36-43 | BOOLEAN renders "true" or "false", NIL renders "nil", RETURN_VALUE renders as its wrapped value |
| Environments.HeapState.Set | evaluator/evaluator.go:53 | storing a binding keeps the number of environments and the allocation counter |
| Environments.HeapState.Enclose | evaluator/evaluator.go:294 | a new enclosed environment is the next number |
| Environments.HeapState.Allocate | evaluator/evaluator.go:59 | a fresh allocation number, larger than any before |
| Environments.Initial | repl/repl.go:17 | the top-level environment is the only one and is well formed |
| Environments.GetAfterSet | evaluator/evaluator.go:53-255 | after `Set`, the name reads as the value stored and every other name reads as before |
| Environments.SetWellFormed | evaluator/evaluator.go:53 | `Set` keeps the heap well formed |
| Environments.EncloseReads | evaluator/evaluator.go:294 | an enclosed environment reads as its outer one, and older environments are untouched |
| Environments.OldFramesRead | evaluator/evaluator.go:293-301 | adding environments changes no reading of older ones |
| Environments.Heap.constructor | main.go:39 | the heap starts as `Initial()` |
| Environments.Heap.NewEnclosedEnvironment | evaluator/evaluator.go:294 | the new state is `Enclose` of the old |
| Environments.Heap.Set | evaluator/evaluator.go:53 | the new state is `Set` of the old |
| Environments.Heap.Allocate | evaluator/evaluator.go:59 | the new state is `Allocate` of the old |
| Builtins.NamedIsNameOf | evaluator/builtins.go:8-125 | exactly the seven table names are builtins, each under its own key |
| Builtins.ArgumentCounts | evaluator/builtins.go:11-100 | any count other than one (two for `push`) gives "wrong number of arguments. got=N, want=M" |
| Builtins.PutsResult | evaluator/builtins.go:117-124 | `puts` panics exactly when some argument is Go nil or a return value wrapping Go nil, whose `Inspect` is a method call on nil; otherwise it returns NIL |
| Builtins.PutsExamples | object/object.go:42-43 | NIL and TRUE print and give NIL; a Go nil argument, or a return value wrapping one, panics |
| Builtins.LenCounts | evaluator/builtins.go:9-22 | `len` is the byte count of a string and the element count of an array; other types give "argument to `len` not supported, got T" |
| Builtins.SplitsOfArrays | evaluator/builtins.go:23-97 | on a non-empty array, `first` + `tail` and `head` + `last` give back the elements, and the new arrays are fresh |
| Builtins.EmptyGivesNil | evaluator/builtins.go:23-97 | `first`, `last`, `tail` and `head` of an empty array, and `first` and `last` of "", are NIL |
| Builtins.StringEnds | evaluator/builtins.go:30-49 | `first` and `last` of a string are one-byte strings of its end bytes |
| Builtins.PushThenSplit | evaluator/builtins.go:98-116 | `push` gives a fresh array of the elements then the value; `last` of it is the value, `head` the elements, and `len` one more |
| Builtins.NonArrayErrors | evaluator/builtins.go:72-113 | `tail` and `head` reject non-arrays with the same message naming 'tail'; `push` names 'head' |
| EvaluatorSpec.Bang | evaluator/evaluator.go:119-130 | `!` always gives a shared boolean |
| Evaluator.RepeatString | evaluator/evaluator.go:172-192 | the loop writes the string `Repeat(str, edge)` times, nothing when edge <= 0 |
| Evaluator.StringInfix | evaluator/evaluator.go:164-195 | equals the string-rule specification |
| Evaluator.Infix | evaluator/evaluator.go:141-162 | equals the infix dispatch specification |
| Evaluator.EvalExpression | evaluator/evaluator.go:17-75 | the result and the new heap equal the evaluation function |
| Evaluator.EvalPrefix | evaluator/evaluator.go:28-32 | the result and the new heap equal the evaluation function |
| Evaluator.EvalInfix | evaluator/evaluator.go:33-40 | the result and the new heap equal the evaluation function |
| Evaluator.EvalRightOperand | evaluator/evaluator.go:37-40 | the result and the new heap equal the evaluation function |
| Evaluator.EvalIf | evaluator/evaluator.go:224-235 | the result and the new heap equal the evaluation function |
| Evaluator.EvalCall | evaluator/evaluator.go:60-69 | the result and the new heap equal the evaluation function |
| Evaluator.EvalExpressions | evaluator/evaluator.go:266-278 | the loop's result and heap equal the evaluation function |
| Evaluator.ExtendFunctionEnv | evaluator/evaluator.go:293-301 | a new environment enclosing the captured one, with the parameters bound in order |
| Evaluator.Apply | evaluator/evaluator.go:280-291 | the result and the new heap equal the evaluation function |
| Evaluator.EvalStatement | evaluator/evaluator.go:21-53 | the result and the new heap equal the evaluation function |
| Evaluator.EvalBlock | evaluator/evaluator.go:237-252 | the loop's result and heap equal the evaluation function |
| Evaluator.EvalProgram | evaluator/evaluator.go:77-106 | the loop's result and heap equal the evaluation function |
| Evaluator.Run | main.go:39-41 | running a program in a new top-level environment gives the function's result |
| OperatorProperties.BangAgainstTruthy | evaluator/evaluator.go:119-324 | `!v` is the negation of truthiness except on ZERO; falsy exactly NIL, FALSE and ZERO; a computed zero and Go nil are truthy |
| OperatorProperties.Negation | evaluator/evaluator.go:132-139 | `-` negates with int64 wrap-around and gives "unknown operator: -T" for other types |
| OperatorProperties.IntegerSumDifference | evaluator/evaluator.go:197-222 | `+` and `-` are exact when the result fits in int64 and wrap otherwise |
| OperatorProperties.IntegerProduct | evaluator/evaluator.go:197-222 | `*` is exact when the product fits |
| OperatorProperties.IntegerComparisons | evaluator/evaluator.go:197-222 | `<`, `>`, `==` and `!=` on integers compare values |
| OperatorProperties.DivisionByZero | evaluator/evaluator.go:209-210 | dividing by ZERO is the division-by-zero error; dividing by a computed zero panics |
| OperatorProperties.Division | evaluator/evaluator.go:197-222 | other quotients truncate toward zero |
| OperatorProperties.DivisionWraps | evaluator/evaluator.go:197-222 | MinInt64 / -1 wraps to MinInt64 |
| OperatorProperties.QuotientFits | evaluator/evaluator.go:197-222 | a truncated quotient fits in int64 unless it is MinInt64 / -1 |
| OperatorProperties.QuotientBound | evaluator/evaluator.go:197-222 | dividing by 1 changes nothing; dividing by at least 2 at least halves |
| OperatorProperties.RepeatAdds | evaluator/evaluator.go:187-190 | m + n repetitions are m repetitions followed by n |
| OperatorProperties.RepeatLength | evaluator/evaluator.go:187-190 | n repetitions have n times the length; none when n <= 0 |
| OperatorProperties.StringOperators | evaluator/evaluator.go:164-195 | `+` concatenates, `*` repeats with the integer on either side, any other operator is unknown, and `+` with an integer or `*` of two strings panics |
| OperatorProperties.RepeatFive | evaluator/evaluator.go:187-190 | five repetitions are five copies concatenated |
| OperatorProperties.StringTimesFive | evaluator/evaluator_test.go:435 | `"foo" * 5` is "foofoofoofoofoo" and `"foo" * -1` is "" |
| OperatorProperties.IdentityOperands | evaluator/evaluator.go:141-162 | for operands that are not two integers or strings: `==` is identity, `!=` its negation, and other operators are a type mismatch or unknown |
| OperatorProperties.IdentityExamples | evaluator/evaluator_test.go:245 | `true == true` is TRUE, and two separately made return values are not identical |
| OperatorProperties.NilOperands | evaluator/evaluator.go:141-147 | a nil operand panics except under `!`, where it gives FALSE |
| EvaluatorProperties.BlockLoopShift | evaluator/evaluator.go:240-249 | the loop from the middle of a list only sees the rest |
| EvaluatorProperties.BlockSequence | evaluator/evaluator.go:240-251 | running two lists of statements is running the first, then the second only if the first ran to its end |
| EvaluatorProperties.ProgramLoopIsBlockLoop | evaluator/evaluator.go:93-105 | the program loop is the block loop followed by unwrapping |
| EvaluatorProperties.ProgramIsBlock | evaluator/evaluator.go:77-252 | `evalProgram` is `evalBlockStatement` with the result unwrapped |
| EvaluatorProperties.ProgramStopsAtReturn | evaluator/evaluator.go:93-105 | a program stops at the first return value or error: it yields the wrapped value, or the error, whatever follows |
| EvaluatorProperties.BlockStopsAtReturn | evaluator/evaluator.go:240-249 | a block stops there too but yields the return value still wrapped |
| EvaluatorProperties.ErrorsPropagate | evaluator/evaluator.go:29-226 | an error from an operand, condition, callee, `return` value or `let` value is the result, with nothing else evaluated |
| EvaluatorProperties.RightOperandErrorPropagates | evaluator/evaluator.go:37-38 | an error from the right operand is the infix result |
| EvaluatorProperties.ArgumentsShape | evaluator/evaluator.go:266-278 | the argument list is a single error or all the values in order, none an error |
| EvaluatorProperties.ArgumentErrorPropagates | evaluator/evaluator.go:269-273 | the first argument error becomes the whole list, with the heap it left, and later arguments are not evaluated, whatever the earlier arguments did to the heap |
| EvaluatorProperties.LetThenLookup | evaluator/evaluator.go:50-264 | a `let` binding is read back unless a builtin of that name shadows it; other names are unchanged; an unbound name is "identifier not found: NAME" |
| EvaluatorProperties.BindingKeepsOtherNames | evaluator/evaluator.go:296-298 | binding parameters changes no other name and adds no environment |
| EvaluatorProperties.BindingBindsParameter | evaluator/evaluator.go:296-298 | each parameter is bound to its argument, the last of equal names winning |
| EvaluatorProperties.CallEnvironment | evaluator/evaluator.go:280-301 | too few arguments panic; otherwise the body runs in a new environment enclosing the captured one, with the parameters bound and other names read from the captured environment, and the result unwrapped |
| EvaluatorProperties.NotAFunction | evaluator/evaluator.go:288-289 | calling anything else gives "not a function: T", or panics on nil |
| EvaluatorProperties.TenBlock | evaluator/evaluator.go:237-252 | the block `{ 10 }` yields 10 |
| EvaluatorProperties.ZeroLiteralIsFalsy | evaluator/evaluator_test.go:302 | `if (0) { 10 }` is NIL |
| EvaluatorProperties.ComputedZeroIsTruthy | evaluator/evaluator.go:24-324 | `if (1 - 1) { 10 }` is 10, because a computed zero is not ZERO |
| EvaluatorProperties.DoubleBangExample | evaluator/evaluator_test.go:285 | `!!5` is TRUE |
| EvaluatorProperties.ReturnExample | evaluator/evaluator_test.go:329 | `9; return 2 * 5; 9;` gives 10 |
| LegacyEvaluator.LegacyIdentical | src/evaluator/evaluator.go:112-117 | pointer identity implies equal values |
| LegacyEvaluator.Eval | src/evaluator/evaluator.go:15-43 | evaluation always finishes, and its values are the ones the older object set can hold |
| LegacyEvaluator.EvalStatement | src/evaluator/evaluator.go:15-43 | evaluation always finishes, and its values are the ones the older object set can hold |
| LegacyEvaluator.EvalBlock | src/evaluator/evaluator.go:161-173 | evaluation always finishes, and its values are the ones the older object set can hold |
| LegacyEvaluator.BlockLoop | src/evaluator/evaluator.go:161-173 | evaluation always finishes, and its values are the ones the older object set can hold |
| LegacyEvaluator.ProgramLoop | src/evaluator/evaluator.go:61-70 | evaluation always finishes, and its values are the ones the older object set can hold |
| LegacyEvaluator.EvalProgram | src/evaluator/evaluator.go:45-71 | evaluation always finishes, and its values are the ones the older object set can hold |
| LegacyEvaluator.Literals | src/evaluator/evaluator.go:21-192 | literal 0 is ZERO, other integers are fresh, and booleans are the shared instances |
| LegacyEvaluator.OtherNodesAreNil | src/evaluator/evaluator.go:15-43 | identifiers, strings, arrays, indexes, functions, calls and `let` evaluate to Go nil |
| LegacyEvaluator.PrefixRules | src/evaluator/evaluator.go:73-104 | an unknown prefix, or `-` on a non-integer, is NIL; `!` and `-` on integers agree with the current evaluator |
| LegacyEvaluator.InfixRules | src/evaluator/evaluator.go:106-120 | outside integers, `==` and `!=` compare identity and anything else is NIL; two return values are never identical |
| LegacyEvaluator.IntegerInfixAgreement | src/evaluator/evaluator.go:122-147 | integer rules agree with the current evaluator except that dividing by a zero value, or an unknown operator, gives NIL rather than an error or a panic |
| LegacyEvaluator.BlockLoopShift | src/evaluator/evaluator.go:161-173 | the block loop from the middle of a list only sees the rest |
| LegacyEvaluator.BlockSequence | src/evaluator/evaluator.go:161-173 | running two lists of statements is running the first, then the second only if no return value stopped it |
| LegacyEvaluator.ProgramLoopIsBlockLoop | src/evaluator/evaluator.go:61-70 | the program loop is the block loop followed by unwrapping |
| LegacyEvaluator.ProgramStopsAtReturn | src/evaluator/evaluator.go:61-70 | the program yields the value wrapped by the first return value, whatever follows |
| LegacyEvaluator.IfExamples | src/evaluator/evaluator.go:149-188 | `if (0) { 10 }` is NIL and `if (1 - 1) { 10 }` is 10 |

## Left out

- I/O: main.go, src/main.go and both REPLs (user lookup, file reading, stdin, printing) are not part of this model. `Run` stands for evaluating a parsed program in a new environment, as main.go does.
- Builtins.PutsResult: the text `puts` writes to standard output is not modelled, only its result and the panic on an argument whose `Inspect` reaches Go nil.
- Hash literals, hash keys and the hash tests: `HashLiteral.String` iterates a Go map in no fixed order, and the `HashKey` code is not in the repository files modelled. `Eval` has no case for array, hash or index literals, and the model gives Go nil for them as the code does.
- Tests against code that is not shown: the string, array, hash and index parser tests (parser/parser_test.go:10-287 and line 606) and the array, hash, map and reduce evaluator tests. The lexer turns `"`, `[` and `:` into ILLEGAL tokens, so none of these behaviours is claimed.
- Environment internals: `NewEnvironment`, `NewEnclosedEnvironment`, `Get` and `Set` are not part of this model. Environments are modelled as numbered frames of one `Heap`, each holding a map and an optional outer frame. A closure holds the number of its captured frame rather than a pointer; aliasing between environment objects is thereby modelled by sharing frame numbers.
- Object types that are used but not declared in the files modelled (String, Array, Function, Builtin, Error) are declared from their use sites. Their `Type()` names and `Inspect()` renderings for Error, Function, Builtin and Array are assumed, not read from source.
- Non-termination: evaluation carries a fuel bound on nesting depth. A program that needs more yields `OutOfFuel`, which the Go code would never produce; this is what stands in for unbounded recursion.
- Go panics: modelled as `Panicked` outcomes rather than preconditions. This covers failed type assertions, integer division by a computed zero, too few call arguments, and calling a method on nil. With too few arguments Go panics after creating the new environment and binding some parameters; the model panics before touching the heap.
- Allocation identity: only arrays, functions and return values carry an allocation number. Fresh integers, strings and errors compare by value in the model, but the evaluator never compares them by pointer, because `==` on integers and strings takes the integer and string rules first, and an error stops evaluation before `==` is reached. The older evaluator's return values all carry number 0, and its identity test treats two of them as distinct, as Go's pointer comparison does.
- Builtins.LenCounts: `len` returns `Wrap64` of the length, which equals the length for any string or array that fits in memory; the lemma states the exact count only below 2^63.
- ParserProperties.AddSubFoldsLeft: of the precedence corpus (parser/parser_test.go:576-605), only "a + b - c" is proved from its source text (AddSubSourceFoldsLeft). The general lemmas (FoldsLeft, TighterNestsRight, PrefixBindsTighter, GroupingAddsNoNode) cover at most two operators between atoms, so entries with three or more operators, such as "a + b * c + d / e - f" and "5 > 4 == 3 < 4", are not covered. Neither is "(5 + 5) * 2", whose group holds an operator, nor a call nested in an argument, such as "a + add(b * c) + d". The argument list of `add(1, 2 * 3, 4 + 5)` is stated from its tokens (ParserForms.AddCallArguments).
- ParserSpec.ParseIfExpression: its own ensures states only that the cursor never moves back and errors are only appended; the trees it builds are stated by ParserForms.IfExpressionForms, IfElseExpressionForms, IfOpenForms and IfElseFailure.
- ParserSpec.ParseIfCondition: its own ensures is the same frame fact; its results are stated by ParserForms.IfConditionForms.
- ParserSpec.ParseElse: its own ensures is the same frame fact; its results are stated by ParserForms.ElseForms.
- ParserSpec.ParseFunctionLiteral: its own ensures is the same frame fact; its results are stated by ParserForms.FunctionLiteralForms.
- ParserSpec.ParseFunctionParameters: its own ensures is the same frame fact; its results are stated by ParserForms.ParameterListForms for lists of one or more names, and by ParserProperties.EmptyArguments for `()`.
- ParserSpec.ParametersLoop: its own ensures states that it only appends; what it appends is stated by ParserForms.ParametersLoopCollects.
- Literal error texts such as "type mismatch: INTEGER + BOOLEAN" are stated in general form (`"type mismatch: " + l.Type() + ...`) rather than for individual test inputs; so are the closure test (evaluator/evaluator_test.go:475-483) and the nested-return test (evaluator/evaluator_test.go:325), which follow from CallEnvironment, BlockStopsAtReturn and ProgramStopsAtReturn.
- The lexer does not keep returning EOF after a NUL byte in the middle of the input: it passes the byte and goes on lexing (LexerProperties.LexNulInMiddle). Repeated EOF holds only at the end of the input (LexerProperties.ScanAtEnd). The model follows the code.
- `strconv.ParseInt(lit, 0, 64)` is modelled for what the lexer can produce, decimal digit runs, including the octal reading of a leading 0. Other prefixes (`0x`, `0b`, `_`) cannot reach it.
- The declaration-only files src/ast/ast.go and src/object/object.go are not modelled separately: the older lexer and evaluator use the current tree's token, node and object types.
