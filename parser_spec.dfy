/**
 * The Pratt parser (src/parser/parser.go) as functions over a parser state: the
 * token stream, the index of the current token (the peek token is the one after
 * it) and the error list. Each function returns what the Go method returns and
 * the state it leaves behind; the `Parser` class is proved to follow them.
 */
module ParserSpec {
  import opened Wrappers
  import opened GoStrings
  import opened Tokens
  import opened Ast

  /** Binding strengths; Go numbers them from 1 with `iota` after a blank 0. */
  const LOWEST: int := 1
  const EQUALS: int := 2
  const LESSGREATER: int := 3
  const SUM: int := 4
  const PRODUCT: int := 5
  const PREFIX: int := 6
  const CALL: int := 7

  /** The precedence table; a type missing from it binds as LOWEST. */
  function Precedence(t: TokenType): (p: int)
    ensures LOWEST <= p <= CALL
  {
    match t
    case Semicolon => LOWEST
    case Equal => EQUALS
    case NEqual => EQUALS
    case GThan => LESSGREATER
    case SThan => LESSGREATER
    case Plus => SUM
    case Minus => SUM
    case Exclamation => PREFIX
    case Star => PRODUCT
    case RBar => PRODUCT
    case LParen => CALL
    case _ => LOWEST
  }

  /** The prefix parse functions `New` registers. */
  datatype PrefixRule =
    | IdentifierFn | IntegerLiteralFn | PrefixExpressionFn | BooleanFn
    | GroupedExpressionFn | IfExpressionFn | FunctionLiteralFn

  function PrefixRuleFor(t: TokenType): Option<PrefixRule>
  {
    match t
    case Ident => Some(IdentifierFn)
    case Int => Some(IntegerLiteralFn)
    case Exclamation => Some(PrefixExpressionFn)
    case Minus => Some(PrefixExpressionFn)
    case True => Some(BooleanFn)
    case False => Some(BooleanFn)
    case LParen => Some(GroupedExpressionFn)
    case If => Some(IfExpressionFn)
    case Function => Some(FunctionLiteralFn)
    case _ => None
  }

  /** The infix parse functions `New` registers. */
  datatype InfixRule = InfixExpressionFn | CallExpressionFn

  function InfixRuleFor(t: TokenType): Option<InfixRule>
  {
    match t
    case Plus => Some(InfixExpressionFn)
    case Minus => Some(InfixExpressionFn)
    case Star => Some(InfixExpressionFn)
    case RBar => Some(InfixExpressionFn)
    case Equal => Some(InfixExpressionFn)
    case NEqual => Some(InfixExpressionFn)
    case GThan => Some(InfixExpressionFn)
    case SThan => Some(InfixExpressionFn)
    case LParen => Some(CallExpressionFn)
    case _ => None
  }

  /**
   * The three kinds of message the parser records. The parser keeps them as
   * values and `Message` spells them out the way `fmt.Sprintf` does.
   */
  datatype ParseError =
    | PeekError(expected: TokenType, got: TokenType)
    | NoPrefixError(tokenType: TokenType)
    | IntegerError(literal: string)

  function Message(e: ParseError): string
  {
    match e
    case PeekError(expected, got) =>
      "expected next token to be " + Name(expected) + ", got " + Name(got) + " instead"
    case NoPrefixError(t) => "no prefix parse function for " + Name(t) + " Token Type found"
    case IntegerError(literal) => "could not parse \"" + literal + "\" as integer"
  }

  /** The messages of a list of errors, in order: what `Errors()` returns. */
  function Messages(es: seq<ParseError>): seq<string>
  {
    seq(|es|, i requires 0 <= i < |es| => Message(es[i]))
  }

  datatype PState = PState(tokens: seq<Token>, pos: nat, errors: seq<ParseError>)
  {
    /** `currentToken` */
    function Cur(): Token { At(tokens, pos) }
    /** `peekToken` */
    function Peek(): Token { At(tokens, pos + 1) }
    /** `nextToken`: the peek token becomes current and the next one is pulled. */
    function Next(): PState { this.(pos := pos + 1) }
    /** Tokens left before the stream yields EOF forever: the termination measure. */
    function Remaining(): nat { if pos < |tokens| then |tokens| - pos else 0 }
  }

  /** t is s later on: same stream, cursor not moved back, errors only appended. */
  predicate Extends(s: PState, t: PState)
  {
    t.tokens == s.tokens && s.pos <= t.pos && s.errors <= t.errors
  }

  /** `expectPeek`: advance past the expected peek token, or record an error and stay. */
  function ExpectPeek(s: PState, t: TokenType): (r: (bool, PState))
    ensures Extends(s, r.1)
    ensures r.0 <==> s.Peek().tokenType == t
    ensures r.0 ==> r.1 == s.Next() && r.1.Cur().tokenType == t
    ensures !r.0 ==> r.1.pos == s.pos && |r.1.errors| == |s.errors| + 1
  {
    if s.Peek().tokenType == t then (true, s.Next())
    else (false, s.(errors := s.errors + [PeekError(t, s.Peek().tokenType)]))
  }

  function ParseIdentifier(s: PState): Expression
  {
    IdentifierExpression(Identifier(s.Cur(), s.Cur().literal))
  }

  function ParseBoolean(s: PState): Expression
  {
    BooleanLiteral(s.Cur(), s.Cur().tokenType == True)
  }

  /**
   * `parseIntegerLiteral`: base-0 `strconv.ParseInt`; on failure an error and a nil node.
   * A literal that is not a run of decimal digits (the lexer never makes one) fails too.
   */
  function ParseIntegerLiteral(s: PState): (r: (Expression, PState))
    requires s.Cur().tokenType == Int
    ensures Extends(s, r.1) && r.1.pos == s.pos
  {
    var lit := s.Cur().literal;
    if !IsDigits(lit) then (NilExpression, s.(errors := s.errors + [IntegerError(lit)])) else
    match ParseInt(lit)
    case Some(v) => (IntegerLiteral(s.Cur(), v), s)
    case None => (NilExpression, s.(errors := s.errors + [IntegerError(lit)]))
  }

  /** `parseExpression`: one prefix rule, then infix rules while the next operator binds tighter. */
  function ParseExpression(s: PState, precedence: int): (r: (Expression, PState))
    ensures Extends(s, r.1)
    decreases s.Remaining(), 3
  {
    match PrefixRuleFor(s.Cur().tokenType)
    case None =>
      (NilExpression, s.(errors := s.errors + [NoPrefixError(s.Cur().tokenType)]))
    case Some(rule) =>
      var r1 := ParsePrefix(s, rule);
      InfixLoop(r1.1, r1.0, precedence)
  }

  /** The prefix parse function registered for the current token. */
  function ParsePrefix(s: PState, rule: PrefixRule): (r: (Expression, PState))
    requires PrefixRuleFor(s.Cur().tokenType) == Some(rule)
    ensures Extends(s, r.1)
    decreases s.Remaining(), 2
  {
    match rule
    case IdentifierFn => (ParseIdentifier(s), s)
    case IntegerLiteralFn => ParseIntegerLiteral(s)
    case BooleanFn => (ParseBoolean(s), s)
    case PrefixExpressionFn => ParsePrefixExpression(s)
    case GroupedExpressionFn => ParseGroupedExpression(s)
    case IfExpressionFn => ParseIfExpression(s)
    case FunctionLiteralFn => ParseFunctionLiteral(s)
  }

  /** The loop of `parseExpression`: fold infix operators into `left` while they bind tighter. */
  function InfixLoop(s: PState, left: Expression, precedence: int): (r: (Expression, PState))
    ensures Extends(s, r.1)
    decreases s.Remaining(), 2
  {
    if Precedence(s.Peek().tokenType) > precedence then
      match InfixRuleFor(s.Peek().tokenType)
      case None => (left, s)
      case Some(rule) =>
        var r1 := ParseInfix(s.Next(), rule, left);
        InfixLoop(r1.1, r1.0, precedence)
    else (left, s)
  }

  /** Proof helper: one unfolding of InfixLoop when the loop stops. */
  lemma InfixLoopDone(s: PState, left: Expression, precedence: int)
    requires !(Precedence(s.Peek().tokenType) > precedence && InfixRuleFor(s.Peek().tokenType).Some?)
    ensures InfixLoop(s, left, precedence) == (left, s)
  {}

  /** Proof helper: one unfolding of InfixLoop when it takes a step. */
  lemma InfixLoopStep(s: PState, left: Expression, precedence: int)
    requires Precedence(s.Peek().tokenType) > precedence && InfixRuleFor(s.Peek().tokenType).Some?
    ensures var r1 := ParseInfix(s.Next(), InfixRuleFor(s.Peek().tokenType).value, left);
            InfixLoop(s, left, precedence) == InfixLoop(r1.1, r1.0, precedence)
  {}

  /** The infix parse function registered for the current (operator) token. */
  function ParseInfix(s: PState, rule: InfixRule, left: Expression): (r: (Expression, PState))
    requires InfixRuleFor(s.Cur().tokenType) == Some(rule)
    ensures Extends(s, r.1)
    decreases s.Remaining(), 2
  {
    match rule
    case InfixExpressionFn => ParseInfixExpression(s, left)
    case CallExpressionFn => ParseCallExpression(s, left)
  }

  function ParsePrefixExpression(s: PState): (r: (Expression, PState))
    requires s.Cur().tokenType in {Exclamation, Minus}
    ensures Extends(s, r.1)
    decreases s.Remaining(), 1
  {
    var token := s.Cur();
    var right := ParseExpression(s.Next(), PREFIX);
    (PrefixExpression(token, token.literal, right.0), right.1)
  }

  /** `parseGroupedExpression`: the inner expression itself, or nil without the `)`. */
  function ParseGroupedExpression(s: PState): (r: (Expression, PState))
    requires s.Cur().tokenType == LParen
    ensures Extends(s, r.1)
    decreases s.Remaining(), 1
  {
    var inner := ParseExpression(s.Next(), LOWEST);
    var close := ExpectPeek(inner.1, RParen);
    (if close.0 then inner.0 else NilExpression, close.1)
  }

  function ParseIfExpression(s: PState): (r: (Expression, PState))
    requires s.Cur().tokenType == If
    ensures Extends(s, r.1)
    decreases s.Remaining(), 1
  {
    var open := ExpectPeek(s, LParen);
    if !open.0 then (NilExpression, open.1) else
    var condition := ParseExpression(open.1.Next(), LOWEST);
    ParseIfCondition(condition.1, s.Cur(), condition.0)
  }

  /** `parseIfExpression` once the condition is read: `)`, then the consequence block. */
  function ParseIfCondition(s: PState, token: Token, condition: Expression): (r: (Expression, PState))
    ensures Extends(s, r.1)
    decreases s.Remaining(), 1
  {
    var close := ExpectPeek(s, RParen);
    if !close.0 then (NilExpression, close.1) else
    var open := ExpectPeek(close.1, LBrace);
    if !open.0 then (NilExpression, open.1) else
    var consequence := ParseBlockStatement(open.1);
    ParseElse(consequence.1, token, condition, consequence.0)
  }

  /** The end of `parseIfExpression`: an optional `else { ... }`. */
  function ParseElse(s: PState, token: Token, condition: Expression, consequence: BlockStatement): (r: (Expression, PState))
    ensures Extends(s, r.1)
    decreases s.Remaining(), 1
  {
    if s.Peek().tokenType != Else then (IfExpression(token, condition, consequence, None), s)
    else
      var open := ExpectPeek(s.Next(), LBrace);
      if !open.0 then (NilExpression, open.1) else
      var alternative := ParseBlockStatement(open.1);
      (IfExpression(token, condition, consequence, Some(alternative.0)), alternative.1)
  }

  /** `parseFunctionLiteral`; a failed parameter list is Go's nil slice, the empty list. */
  function ParseFunctionLiteral(s: PState): (r: (Expression, PState))
    requires s.Cur().tokenType == Function
    ensures Extends(s, r.1)
    decreases s.Remaining(), 1
  {
    var open := ExpectPeek(s, LParen);
    if !open.0 then (NilExpression, open.1) else
    var parameters := ParseFunctionParameters(open.1);
    var brace := ExpectPeek(parameters.1, LBrace);
    if !brace.0 then (NilExpression, brace.1) else
    var body := ParseBlockStatement(brace.1);
    (FunctionLiteral(s.Cur(), parameters.0, body.0), body.1)
  }

  /** `parseFunctionParameters`: `()` or comma-separated names and `)`; nil when `)` is missing. */
  function ParseFunctionParameters(s: PState): (r: (seq<Identifier>, PState))
    ensures Extends(s, r.1)
  {
    if s.Peek().tokenType == RParen then ([], s.Next())
    else
      var s1 := s.Next();
      var names := ParametersLoop(s1, [Identifier(s1.Cur(), s1.Cur().literal)]);
      var close := ExpectPeek(names.1, RParen);
      (if close.0 then names.0 else [], close.1)
  }

  function ParametersLoop(s: PState, identifiers: seq<Identifier>): (r: (seq<Identifier>, PState))
    ensures Extends(s, r.1)
    ensures identifiers <= r.0
    decreases s.Remaining()
  {
    if s.Peek().tokenType == Comma then
      var s1 := s.Next().Next();
      ParametersLoop(s1, identifiers + [Identifier(s1.Cur(), s1.Cur().literal)])
    else (identifiers, s)
  }

  function ParseInfixExpression(s: PState, left: Expression): (r: (Expression, PState))
    requires InfixRuleFor(s.Cur().tokenType) == Some(InfixExpressionFn)
    ensures Extends(s, r.1)
    decreases s.Remaining(), 1
  {
    var token := s.Cur();
    var right := ParseExpression(s.Next(), Precedence(token.tokenType));
    (InfixExpression(token, left, token.literal, right.0), right.1)
  }

  function ParseCallExpression(s: PState, callee: Expression): (r: (Expression, PState))
    requires s.Cur().tokenType == LParen
    ensures Extends(s, r.1)
    decreases s.Remaining(), 1
  {
    var arguments := ParseCallArguments(s);
    (CallExpression(s.Cur(), callee, arguments.0), arguments.1)
  }

  /** `parseCallArguments`: `()` or comma-separated expressions and `)`; nil when `)` is missing. */
  function ParseCallArguments(s: PState): (r: (seq<Expression>, PState))
    requires s.Cur().tokenType == LParen
    ensures Extends(s, r.1)
    decreases s.Remaining(), 0
  {
    if s.Peek().tokenType == RParen then ([], s.Next())
    else
      var first := ParseExpression(s.Next(), LOWEST);
      var rest := ArgumentsLoop(first.1, [first.0]);
      var close := ExpectPeek(rest.1, RParen);
      (if close.0 then rest.0 else [], close.1)
  }

  function ArgumentsLoop(s: PState, arguments: seq<Expression>): (r: (seq<Expression>, PState))
    ensures Extends(s, r.1)
    ensures arguments <= r.0
    decreases s.Remaining(), 0
  {
    if s.Peek().tokenType == Comma then
      var next := ParseExpression(s.Next().Next(), LOWEST);
      ArgumentsLoop(next.1, arguments + [next.0])
    else (arguments, s)
  }

  /** Proof helper: one unfolding of ArgumentsLoop when the loop stops. */
  lemma ArgumentsLoopDone(s: PState, arguments: seq<Expression>)
    requires s.Peek().tokenType != Comma
    ensures ArgumentsLoop(s, arguments) == (arguments, s)
  {}

  /** Proof helper: one unfolding of ArgumentsLoop when it takes a step. */
  lemma ArgumentsLoopStep(s: PState, arguments: seq<Expression>)
    requires s.Peek().tokenType == Comma
    ensures var next := ParseExpression(s.Next().Next(), LOWEST);
            ArgumentsLoop(s, arguments) == ArgumentsLoop(next.1, arguments + [next.0])
  {}

  /** `parseBlockStatement`: statements up to the closing `}` or EOF, which is left current. */
  function ParseBlockStatement(s: PState): (r: (BlockStatement, PState))
    requires s.Cur().tokenType == LBrace
    ensures Extends(s, r.1)
    ensures r.1.Cur().tokenType in {RBrace, Eof}
    decreases s.Remaining(), 4
  {
    BlockLoop(s.Next(), BlockStatement(s.Cur(), []))
  }

  function BlockLoop(s: PState, block: BlockStatement): (r: (BlockStatement, PState))
    ensures Extends(s, r.1)
    ensures r.1.Cur().tokenType in {RBrace, Eof}
    decreases s.Remaining(), 6
  {
    if s.Cur().tokenType == RBrace || s.Cur().tokenType == Eof then (block, s)
    else
      var stmt := ParseStatement(s);
      BlockLoop(stmt.1.Next(), block.(statements := block.statements + [stmt.0]))
  }

  /** `parseStatement`: dispatch on `let`, `return`, anything else. */
  function ParseStatement(s: PState): (r: (Statement, PState))
    requires s.Cur().tokenType != Eof
    ensures Extends(s, r.1)
    decreases s.Remaining(), 5
  {
    if s.Cur().tokenType == Let then ParseLetStatement(s)
    else if s.Cur().tokenType == Return then ParseReturnStatement(s)
    else ParseExpressionStatement(s)
  }

  /** `let NAME = VALUE` and any number of `;`; a typed nil when IDENT or `=` is missing. */
  function ParseLetStatement(s: PState): (r: (Statement, PState))
    requires s.Cur().tokenType == Let
    ensures Extends(s, r.1)
    ensures r.0 == NilLetStatement <==> s.Peek().tokenType != Ident || At(s.tokens, s.pos + 2).tokenType != Assign
    ensures r.0 == NilLetStatement ==> |r.1.errors| == |s.errors| + 1
    decreases s.Remaining(), 3
  {
    var ident := ExpectPeek(s, Ident);
    if !ident.0 then (NilLetStatement, ident.1) else
    var name := Identifier(ident.1.Cur(), ident.1.Cur().literal);
    var assign := ExpectPeek(ident.1, Assign);
    if !assign.0 then (NilLetStatement, assign.1) else
    var value := ParseExpression(assign.1.Next(), LOWEST);
    (LetStatement(s.Cur(), name, value.0), SkipSemicolons(value.1))
  }

  /** `return VALUE` and any number of `;`. */
  function ParseReturnStatement(s: PState): (r: (Statement, PState))
    requires s.Cur().tokenType == Return
    ensures Extends(s, r.1)
    decreases s.Remaining(), 3
  {
    var value := ParseExpression(s.Next(), LOWEST);
    (ReturnStatement(s.Cur(), value.0), SkipSemicolons(value.1))
  }

  /** An expression and at most one `;`. */
  function ParseExpressionStatement(s: PState): (r: (Statement, PState))
    ensures Extends(s, r.1)
    decreases s.Remaining(), 4
  {
    var e := ParseExpression(s, LOWEST);
    (ExpressionStatement(s.Cur(), e.0), if e.1.Peek().tokenType == Semicolon then e.1.Next() else e.1)
  }

  /** The `for p.peekTokenIs(token.SEMICOLON)` loops of `let` and `return`. */
  function SkipSemicolons(s: PState): (r: PState)
    ensures Extends(s, r) && r.errors == s.errors
    ensures r.Peek().tokenType != Semicolon
    decreases s.Remaining()
  {
    if s.Peek().tokenType == Semicolon then SkipSemicolons(s.Next()) else s
  }

  /** `ParseProgram` from a fresh parser, with the errors `Errors()` then reports. */
  function ParseProgram(tokens: seq<Token>): (r: (Program, seq<string>))
  {
    var r := ProgramLoop(PState(tokens, 0, []), Program([]));
    (r.0, Messages(r.1.errors))
  }

  /** The loop of `ParseProgram`: parse statements until the current token is EOF. */
  function ProgramLoop(s: PState, program: Program): (r: (Program, PState))
    ensures Extends(s, r.1)
    ensures r.1.Cur().tokenType == Eof
    ensures program.statements <= r.0.statements
    decreases s.Remaining()
  {
    if s.Cur().tokenType == Eof then (program, s)
    else
      var stmt := ParseStatement(s);
      ProgramLoop(stmt.1.Next(), program.(statements := program.statements + [stmt.0]))
  }
}
