/**
 * The parser object (src/parser/parser.go): it reads a token stream through a
 * cursor, keeps the current and the peek token and a list of errors, and each
 * of its methods is proved to do what the function of the same name in
 * ParserSpec describes. `pulled` counts the tokens taken from the stream so
 * far; once two are pulled, the current token is token number `pulled - 2`.
 * The stream is the sequence of tokens the lexer yields (see Tokenize), with
 * EOF forever after its last token, as the lexer keeps answering at the end
 * of its input.
 */
module Parser {
  import opened Wrappers
  import opened GoStrings
  import opened Tokens
  import opened Ast
  import opened ParserSpec
  import Lexer
  import LexerProperties

  class Parser {
    /** The tokens the lexer yields (EOF forever after them). */
    const tokens: seq<Token>
    var pulled: nat
    var currentToken: Token
    var peekToken: Token
    var errors: seq<ParseError>

    /** The current and the peek token are the two tokens before the cursor. */
    ghost predicate Connected()
      reads this
    {
      (pulled >= 1 ==> peekToken == At(tokens, pulled - 1))
      && (pulled >= 2 ==> currentToken == At(tokens, pulled - 2))
    }

    ghost predicate Valid()
      reads this
    {
      Connected() && pulled >= 2
    }

    /** The parser state the specification functions work on. */
    ghost function State(): PState
      reads this
    {
      PState(tokens, if pulled >= 2 then pulled - 2 else 0, errors)
    }

    /** `New`: register the parse functions (the tables of ParserSpec) and pull two tokens. */
    constructor (stream: seq<Token>)
      ensures Valid() && State() == PState(stream, 0, [])
    {
      tokens := stream;
      pulled := 0;
      currentToken := Token(Empty, "");
      peekToken := Token(Empty, "");
      errors := [];
      new;
      NextToken();
      NextToken();
    }

    /** `Errors`: the messages recorded so far. */
    method Errors() returns (messages: seq<string>)
      ensures messages == Messages(errors)
    {
      messages := Messages(errors);
    }

    /** `nextToken`: the peek token becomes current and the stream supplies a new peek token. */
    method NextToken()
      requires Connected()
      modifies this
      ensures Connected() && pulled == old(pulled) + 1
      ensures errors == old(errors)
      ensures old(pulled) >= 2 ==> State() == old(State()).Next()
    {
      currentToken := peekToken;
      peekToken := At(tokens, pulled);
      pulled := pulled + 1;
    }

    /** `peekError`: record that the peek token is not the expected one. */
    method PeekError(t: TokenType)
      requires Valid()
      modifies this
      ensures Valid() && State() == old(State()).(errors := old(errors) + [ParseError.PeekError(t, peekToken.tokenType)])
    {
      errors := errors + [ParseError.PeekError(t, peekToken.tokenType)];
    }

    method NoPrefixParseFnError(t: TokenType)
      requires Valid()
      modifies this
      ensures Valid() && State() == old(State()).(errors := old(errors) + [NoPrefixError(t)])
    {
      errors := errors + [NoPrefixError(t)];
    }

    method ExpectPeek(t: TokenType) returns (ok: bool)
      requires Valid()
      modifies this
      ensures Valid()
      ensures (ok, State()) == ParserSpec.ExpectPeek(old(State()), t)
    {
      ok := peekToken.tokenType == t;
      if ok {
        NextToken();
      } else {
        PeekError(t);
      }
    }

    method ParseIdentifier() returns (e: Expression)
      requires Valid()
      ensures e == ParserSpec.ParseIdentifier(State())
    {
      e := IdentifierExpression(Identifier(currentToken, currentToken.literal));
    }

    method ParseBoolean() returns (e: Expression)
      requires Valid()
      ensures e == ParserSpec.ParseBoolean(State())
    {
      e := BooleanLiteral(currentToken, currentToken.tokenType == True);
    }

    method ParseIntegerLiteral() returns (e: Expression)
      requires Valid() && currentToken.tokenType == Int
      modifies this
      ensures Valid()
      ensures (e, State()) == ParserSpec.ParseIntegerLiteral(old(State()))
    {
      var parsed := if IsDigits(currentToken.literal) then ParseInt(currentToken.literal) else None;
      if parsed.None? {
        errors := errors + [IntegerError(currentToken.literal)];
        e := NilExpression;
      } else {
        e := IntegerLiteral(currentToken, parsed.value);
      }
    }

    method ParseExpression(precedence: int) returns (e: Expression)
      requires Valid()
      modifies this
      ensures Valid()
      ensures (e, State()) == ParserSpec.ParseExpression(old(State()), precedence)
      decreases State().Remaining(), 3
    {
      var prefix := PrefixRuleFor(currentToken.tokenType);
      if prefix.None? {
        NoPrefixParseFnError(currentToken.tokenType);
        e := NilExpression;
      } else {
        var left := ParsePrefix(prefix.value);
        e := InfixLoop(left, precedence);
      }
    }

    /** The loop of `parseExpression`: fold infix operators into `left` while they bind tighter. */
    method InfixLoop(left: Expression, precedence: int) returns (e: Expression)
      requires Valid()
      modifies this
      ensures Valid()
      ensures (e, State()) == ParserSpec.InfixLoop(old(State()), left, precedence)
      decreases State().Remaining(), 2
    {
      e := left;
      while Precedence(peekToken.tokenType) > precedence && InfixRuleFor(peekToken.tokenType).Some?
        invariant Valid()
        invariant ParserSpec.InfixLoop(State(), e, precedence) == ParserSpec.InfixLoop(old(State()), left, precedence)
        decreases State().Remaining()
      {
        InfixLoopStep(State(), e, precedence);
        var infix := InfixRuleFor(peekToken.tokenType).value;
        NextToken();
        e := ParseInfix(infix, e);
      }
      InfixLoopDone(State(), e, precedence);
    }

    /** Call the prefix parse function registered for the current token. */
    method ParsePrefix(rule: PrefixRule) returns (e: Expression)
      requires Valid() && PrefixRuleFor(currentToken.tokenType) == Some(rule)
      modifies this
      ensures Valid()
      ensures (e, State()) == ParserSpec.ParsePrefix(old(State()), rule)
      decreases State().Remaining(), 2
    {
      match rule {
        case IdentifierFn => e := ParseIdentifier();
        case IntegerLiteralFn => e := ParseIntegerLiteral();
        case BooleanFn => e := ParseBoolean();
        case PrefixExpressionFn => e := ParsePrefixExpression();
        case GroupedExpressionFn => e := ParseGroupedExpression();
        case IfExpressionFn => e := ParseIfExpression();
        case FunctionLiteralFn => e := ParseFunctionLiteral();
      }
    }

    /** Call the infix parse function registered for the current (operator) token. */
    method ParseInfix(rule: InfixRule, left: Expression) returns (e: Expression)
      requires Valid() && InfixRuleFor(currentToken.tokenType) == Some(rule)
      modifies this
      ensures Valid()
      ensures (e, State()) == ParserSpec.ParseInfix(old(State()), rule, left)
      decreases State().Remaining(), 2
    {
      match rule {
        case InfixExpressionFn => e := ParseInfixExpression(left);
        case CallExpressionFn => e := ParseCallExpression(left);
      }
    }

    method ParsePrefixExpression() returns (e: Expression)
      requires Valid() && currentToken.tokenType in {Exclamation, Minus}
      modifies this
      ensures Valid()
      ensures (e, State()) == ParserSpec.ParsePrefixExpression(old(State()))
      decreases State().Remaining(), 1
    {
      var token := currentToken;
      NextToken();
      var right := ParseExpression(PREFIX);
      e := PrefixExpression(token, token.literal, right);
    }

    method ParseGroupedExpression() returns (e: Expression)
      requires Valid() && currentToken.tokenType == LParen
      modifies this
      ensures Valid()
      ensures (e, State()) == ParserSpec.ParseGroupedExpression(old(State()))
      decreases State().Remaining(), 1
    {
      NextToken();
      e := ParseExpression(LOWEST);
      var ok := ExpectPeek(RParen);
      if !ok {
        e := NilExpression;
      }
    }

    method ParseIfExpression() returns (e: Expression)
      requires Valid() && currentToken.tokenType == If
      modifies this
      ensures Valid()
      ensures (e, State()) == ParserSpec.ParseIfExpression(old(State()))
      decreases State().Remaining(), 1
    {
      var token := currentToken;
      var ok := ExpectPeek(LParen);
      e := NilExpression;
      if ok {
        NextToken();
        var condition := ParseExpression(LOWEST);
        e := ParseIfCondition(token, condition);
      }
    }

    /** `parseIfExpression` once the condition is read: `)`, then the consequence block. */
    method ParseIfCondition(token: Token, condition: Expression) returns (e: Expression)
      requires Valid()
      modifies this
      ensures Valid()
      ensures (e, State()) == ParserSpec.ParseIfCondition(old(State()), token, condition)
      decreases State().Remaining(), 1
    {
      var ok := ExpectPeek(RParen);
      e := NilExpression;
      if ok {
        ok := ExpectPeek(LBrace);
        if ok {
          var consequence := ParseBlockStatement();
          e := ParseElse(token, condition, consequence);
        }
      }
    }

    /** The end of `parseIfExpression`: an optional `else { ... }`. */
    method ParseElse(token: Token, condition: Expression, consequence: BlockStatement) returns (e: Expression)
      requires Valid()
      modifies this
      ensures Valid()
      ensures (e, State()) == ParserSpec.ParseElse(old(State()), token, condition, consequence)
      decreases State().Remaining(), 1
    {
      if peekToken.tokenType != Else {
        e := IfExpression(token, condition, consequence, None);
      } else {
        NextToken();
        var ok := ExpectPeek(LBrace);
        e := NilExpression;
        if ok {
          var alternative := ParseBlockStatement();
          e := IfExpression(token, condition, consequence, Some(alternative));
        }
      }
    }

    method ParseFunctionLiteral() returns (e: Expression)
      requires Valid() && currentToken.tokenType == Function
      modifies this
      ensures Valid()
      ensures (e, State()) == ParserSpec.ParseFunctionLiteral(old(State()))
      decreases State().Remaining(), 1
    {
      var token := currentToken;
      var ok := ExpectPeek(LParen);
      e := NilExpression;
      if ok {
        var parameters := ParseFunctionParameters();
        ok := ExpectPeek(LBrace);
        if ok {
          var body := ParseBlockStatement();
          e := FunctionLiteral(token, parameters, body);
        }
      }
    }

    method ParseFunctionParameters() returns (identifiers: seq<Identifier>)
      requires Valid()
      modifies this
      ensures Valid()
      ensures (identifiers, State()) == ParserSpec.ParseFunctionParameters(old(State()))
    {
      if peekToken.tokenType == RParen {
        NextToken();
        identifiers := [];
      } else {
        NextToken();
        identifiers := ParametersLoop([Identifier(currentToken, currentToken.literal)]);
        var ok := ExpectPeek(RParen);
        if !ok {
          identifiers := [];
        }
      }
    }

    /** The loop of `parseFunctionParameters`: `, NAME` pairs while the peek token is a comma. */
    method ParametersLoop(first: seq<Identifier>) returns (identifiers: seq<Identifier>)
      requires Valid()
      modifies this
      ensures Valid()
      ensures (identifiers, State()) == ParserSpec.ParametersLoop(old(State()), first)
    {
      identifiers := first;
      while peekToken.tokenType == Comma
        invariant Valid()
        invariant ParserSpec.ParametersLoop(State(), identifiers) == ParserSpec.ParametersLoop(old(State()), first)
        decreases State().Remaining()
      {
        NextToken();
        NextToken();
        identifiers := identifiers + [Identifier(currentToken, currentToken.literal)];
      }
    }

    method ParseInfixExpression(left: Expression) returns (e: Expression)
      requires Valid() && InfixRuleFor(currentToken.tokenType) == Some(InfixExpressionFn)
      modifies this
      ensures Valid()
      ensures (e, State()) == ParserSpec.ParseInfixExpression(old(State()), left)
      decreases State().Remaining(), 1
    {
      var token := currentToken;
      var precedence := Precedence(currentToken.tokenType);
      NextToken();
      var right := ParseExpression(precedence);
      e := InfixExpression(token, left, token.literal, right);
    }

    method ParseCallExpression(callee: Expression) returns (e: Expression)
      requires Valid() && currentToken.tokenType == LParen
      modifies this
      ensures Valid()
      ensures (e, State()) == ParserSpec.ParseCallExpression(old(State()), callee)
      decreases State().Remaining(), 1
    {
      var token := currentToken;
      var arguments := ParseCallArguments();
      e := CallExpression(token, callee, arguments);
    }

    method ParseCallArguments() returns (arguments: seq<Expression>)
      requires Valid() && currentToken.tokenType == LParen
      modifies this
      ensures Valid()
      ensures (arguments, State()) == ParserSpec.ParseCallArguments(old(State()))
      decreases State().Remaining(), 0
    {
      if peekToken.tokenType == RParen {
        NextToken();
        arguments := [];
      } else {
        NextToken();
        var first := ParseExpression(LOWEST);
        arguments := ArgumentsLoop([first]);
        var ok := ExpectPeek(RParen);
        if !ok {
          arguments := [];
        }
      }
    }

    /** The loop of `parseCallArguments`: `, EXPRESSION` while the peek token is a comma. */
    method ArgumentsLoop(first: seq<Expression>) returns (arguments: seq<Expression>)
      requires Valid()
      modifies this
      ensures Valid()
      ensures (arguments, State()) == ParserSpec.ArgumentsLoop(old(State()), first)
      decreases State().Remaining(), 1
    {
      arguments := first;
      while peekToken.tokenType == Comma
        invariant Valid()
        invariant ParserSpec.ArgumentsLoop(State(), arguments) == ParserSpec.ArgumentsLoop(old(State()), first)
        decreases State().Remaining()
      {
        ArgumentsLoopStep(State(), arguments);
        var next := ParseNextArgument();
        arguments := arguments + [next];
      }
      ArgumentsLoopDone(State(), arguments);
    }

    /** One round of the loop of `parseCallArguments`: skip the comma, parse an argument. */
    method ParseNextArgument() returns (next: Expression)
      requires Valid() && peekToken.tokenType == Comma
      modifies this
      ensures Valid()
      ensures (next, State()) == ParserSpec.ParseExpression(old(State()).Next().Next(), LOWEST)
      decreases State().Remaining(), 0
    {
      NextToken();
      NextToken();
      next := ParseExpression(LOWEST);
    }

    method ParseBlockStatement() returns (block: BlockStatement)
      requires Valid() && currentToken.tokenType == LBrace
      modifies this
      ensures Valid()
      ensures (block, State()) == ParserSpec.ParseBlockStatement(old(State()))
      decreases State().Remaining(), 4
    {
      var token := currentToken;
      NextToken();
      block := BlockLoop(BlockStatement(token, []));
    }

    /** The loop of `parseBlockStatement`: statements until `}` or EOF is current. */
    method BlockLoop(first: BlockStatement) returns (block: BlockStatement)
      requires Valid()
      modifies this
      ensures Valid()
      ensures (block, State()) == ParserSpec.BlockLoop(old(State()), first)
      decreases State().Remaining(), 6
    {
      block := first;
      while currentToken.tokenType != RBrace && currentToken.tokenType != Eof
        invariant Valid()
        invariant ParserSpec.BlockLoop(State(), block) == ParserSpec.BlockLoop(old(State()), first)
        decreases State().Remaining()
      {
        var stmt := ParseStatement();
        block := block.(statements := block.statements + [stmt]);
        NextToken();
      }
    }

    method ParseStatement() returns (stmt: Statement)
      requires Valid() && currentToken.tokenType != Eof
      modifies this
      ensures Valid()
      ensures (stmt, State()) == ParserSpec.ParseStatement(old(State()))
      decreases State().Remaining(), 5
    {
      if currentToken.tokenType == Let {
        stmt := ParseLetStatement();
      } else if currentToken.tokenType == Return {
        stmt := ParseReturnStatement();
      } else {
        stmt := ParseExpressionStatement();
      }
    }

    method ParseLetStatement() returns (stmt: Statement)
      requires Valid() && currentToken.tokenType == Let
      modifies this
      ensures Valid()
      ensures (stmt, State()) == ParserSpec.ParseLetStatement(old(State()))
      decreases State().Remaining(), 3
    {
      var token := currentToken;
      var ok := ExpectPeek(Ident);
      stmt := NilLetStatement;
      if ok {
        var name := Identifier(currentToken, currentToken.literal);
        ok := ExpectPeek(Assign);
        if ok {
          NextToken();
          var value := ParseExpression(LOWEST);
          SkipSemicolons();
          stmt := LetStatement(token, name, value);
        }
      }
    }

    method ParseReturnStatement() returns (stmt: Statement)
      requires Valid() && currentToken.tokenType == Return
      modifies this
      ensures Valid()
      ensures (stmt, State()) == ParserSpec.ParseReturnStatement(old(State()))
      decreases State().Remaining(), 3
    {
      var token := currentToken;
      NextToken();
      var value := ParseExpression(LOWEST);
      SkipSemicolons();
      stmt := ReturnStatement(token, value);
    }

    /** The `for p.peekTokenIs(token.SEMICOLON)` loops of `let` and `return`. */
    method SkipSemicolons()
      requires Valid()
      modifies this
      ensures Valid()
      ensures State() == ParserSpec.SkipSemicolons(old(State()))
    {
      while peekToken.tokenType == Semicolon
        invariant Valid()
        invariant ParserSpec.SkipSemicolons(State()) == ParserSpec.SkipSemicolons(old(State()))
        decreases State().Remaining()
      {
        NextToken();
      }
    }

    method ParseExpressionStatement() returns (stmt: Statement)
      requires Valid()
      modifies this
      ensures Valid()
      ensures (stmt, State()) == ParserSpec.ParseExpressionStatement(old(State()))
      decreases State().Remaining(), 4
    {
      var token := currentToken;
      var e := ParseExpression(LOWEST);
      if peekToken.tokenType == Semicolon {
        NextToken();
      }
      stmt := ExpressionStatement(token, e);
    }

    /** `ParseProgram`: statements until the current token is EOF. */
    method ParseProgram() returns (program: Program)
      requires Valid()
      modifies this
      ensures Valid()
      ensures (program, State()) == ProgramLoop(old(State()), Program([]))
    {
      program := Program([]);
      while currentToken.tokenType != Eof
        invariant Valid()
        invariant ProgramLoop(State(), program) == ProgramLoop(old(State()), Program([]))
        decreases State().Remaining()
      {
        var stmt := ParseStatement();
        program := program.(statements := program.statements + [stmt]);
        NextToken();
      }
    }
  }

  /**
   * Drains a lexer: the tokens it hands out call after call until its cursor
   * reaches the end of the input are exactly Lexer.Lex from where it stood;
   * after them it answers EOF for good (LexerProperties.ScanAtEnd).
   */
  method Tokenize(l: Lexer.Lexer) returns (tokens: seq<Token>)
    requires l.Valid()
    modifies l
    ensures l.Valid() && l.position >= |l.input|
    ensures tokens == Lexer.Lex(l.input, old(l.position))
  {
    tokens := [];
    while l.position < |l.input|
      invariant l.Valid()
      invariant tokens + Lexer.Lex(l.input, l.position) == Lexer.Lex(l.input, old(l.position))
      decreases |l.input| - l.position
    {
      var t := l.NextToken();
      tokens := tokens + [t];
    }
  }

  /**
   * Lexing and parsing a source text with a fresh lexer and parser gives the
   * program and the messages of ParserSpec.ParseProgram on the lexer's stream.
   */
  method Parse(input: Bytes) returns (program: Program, messages: seq<string>)
    ensures (program, messages) == ParseProgram(Lexer.Lex(input, 0))
  {
    var l := new Lexer.Lexer(input);
    var tokens := Tokenize(l);
    var p := new Parser(tokens);
    program := p.ParseProgram();
    messages := p.Errors();
  }
}
