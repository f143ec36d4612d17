/**
 * What the parser promises about the trees it builds and the errors it keeps:
 * binding strength, left folding of equal-strength operators, nesting of
 * tighter ones, prefix operands, `expectPeek` in both directions, the error
 * texts, the statement forms and the program loop.
 */
module ParserProperties {
  import opened Wrappers
  import opened GoStrings
  import opened Tokens
  import opened Ast
  import opened ParserSpec
  import Lexer
  import LexerProperties

  /**
   * A token that `parseExpression` reads as a whole operand by itself: an
   * identifier, `true`, `false`, or an integer literal `strconv.ParseInt` accepts.
   */
  predicate IsAtom(t: Token)
  {
    t.tokenType in {Ident, True, False} || (t.tokenType == Int && IsDigits(t.literal) && ParseInt(t.literal).Some?)
  }

  /** The node the prefix rule of an atom builds for it. */
  function Operand(t: Token): Expression
  {
    if t.tokenType == Int && IsDigits(t.literal) && ParseInt(t.literal).Some? then
      IntegerLiteral(t, ParseInt(t.literal).value)
    else if t.tokenType in {True, False} then BooleanLiteral(t, t.tokenType == True)
    else IdentifierExpression(Identifier(t, t.literal))
  }

  /** A token type whose infix rule builds an InfixExpression. */
  predicate BinaryOperator(t: TokenType)
  {
    InfixRuleFor(t) == Some(InfixExpressionFn)
  }

  /** The InfixExpression `parseInfixExpression` builds for an operator token. */
  function Binary(op: Token, left: Expression, right: Expression): Expression
  {
    InfixExpression(op, left, op.literal, right)
  }

  /**
   * The binding strengths climb strictly from `==`/`!=` through `<`/`>`, `+`/`-`,
   * `*`/`/` and the prefix operators up to the call parenthesis, and every type
   * outside the table binds as LOWEST.
   */
  lemma PrecedenceOrder(t: TokenType)
    ensures LOWEST < EQUALS < LESSGREATER < SUM < PRODUCT < PREFIX < CALL
    ensures Precedence(Equal) == Precedence(NEqual) == EQUALS
    ensures Precedence(SThan) == Precedence(GThan) == LESSGREATER
    ensures Precedence(Plus) == Precedence(Minus) == SUM
    ensures Precedence(Star) == Precedence(RBar) == PRODUCT
    ensures Precedence(LParen) == CALL
    ensures t !in {Equal, NEqual, SThan, GThan, Plus, Minus, Star, RBar, LParen, Exclamation} ==>
              Precedence(t) == LOWEST
  {
  }

  /** Every binary operator binds looser than a prefix operator and tighter than LOWEST. */
  lemma BinaryOperatorStrength(t: TokenType)
    requires BinaryOperator(t)
    ensures LOWEST < Precedence(t) < PREFIX
  {
  }

  /**
   * An atom is read as its own node without moving the cursor or recording an
   * error; then the infix loop takes over from it.
   */
  lemma AtomOperand(s: PState, precedence: int)
    requires IsAtom(s.Cur())
    ensures ParseExpression(s, precedence) == InfixLoop(s, Operand(s.Cur()), precedence)
  {
    var rule := PrefixRuleFor(s.Cur().tokenType).value;
    assert ParsePrefix(s, rule) == (Operand(s.Cur()), s);
  }

  /** An operand whose next token binds no tighter than the threshold ends the expression. */
  lemma LoneOperand(s: PState, precedence: int)
    requires IsAtom(s.Cur())
    requires Precedence(s.Peek().tokenType) <= precedence
    ensures ParseExpression(s, precedence) == (Operand(s.Cur()), s)
  {
    AtomOperand(s, precedence);
  }

  /** One round of the infix loop on a binary operator: its right side is parsed at its own strength. */
  lemma BinaryStep(s: PState, left: Expression, precedence: int)
    requires BinaryOperator(s.Peek().tokenType) && Precedence(s.Peek().tokenType) > precedence
    ensures var right := ParseExpression(s.Next().Next(), Precedence(s.Peek().tokenType));
            InfixLoop(s, left, precedence) == InfixLoop(right.1, Binary(s.Peek(), left, right.0), precedence)
  {
    InfixLoopStep(s, left, precedence);
  }

  /** One binary operator between two atoms: `a op b`. */
  lemma OneOperator(s: PState, precedence: int)
    requires IsAtom(s.Cur()) && IsAtom(At(s.tokens, s.pos + 2))
    requires BinaryOperator(s.Peek().tokenType) && Precedence(s.Peek().tokenType) > precedence
    requires Precedence(At(s.tokens, s.pos + 3).tokenType) <= precedence
    ensures ParseExpression(s, precedence)
         == (Binary(s.Peek(), Operand(s.Cur()), Operand(At(s.tokens, s.pos + 2))), s.(pos := s.pos + 2))
  {
    var s2 := s.Next().Next();
    AtomOperand(s, precedence);
    BinaryStep(s, Operand(s.Cur()), precedence);
    LoneOperand(s2, Precedence(s.Peek().tokenType));
  }

  /**
   * Operators of equal strength fold to the left: `a op1 b op2 c` is
   * `((a op1 b) op2 c)`, because the right side of an infix operator is parsed at
   * the operator's own strength and the loop only continues on a strictly
   * stronger one; the same holds when op1 binds tighter than op2.
   */
  lemma FoldsLeft(s: PState, precedence: int)
    requires IsAtom(s.Cur()) && IsAtom(At(s.tokens, s.pos + 2))
    requires IsAtom(At(s.tokens, s.pos + 4))
    requires BinaryOperator(s.Peek().tokenType) && BinaryOperator(At(s.tokens, s.pos + 3).tokenType)
    requires Precedence(s.Peek().tokenType) >= Precedence(At(s.tokens, s.pos + 3).tokenType) > precedence
    requires Precedence(At(s.tokens, s.pos + 5).tokenType) <= precedence
    ensures var a, b, c := Operand(s.Cur()), Operand(At(s.tokens, s.pos + 2)), Operand(At(s.tokens, s.pos + 4));
            ParseExpression(s, precedence)
              == (Binary(At(s.tokens, s.pos + 3), Binary(s.Peek(), a, b), c), s.(pos := s.pos + 4))
  {
    var a, b, c := Operand(s.Cur()), Operand(At(s.tokens, s.pos + 2)), Operand(At(s.tokens, s.pos + 4));
    var s2, s4 := s.(pos := s.pos + 2), s.(pos := s.pos + 4);
    var op1, op2 := s.Peek(), At(s.tokens, s.pos + 3);
    AtomOperand(s, precedence);
    BinaryStep(s, a, precedence);
    LoneOperand(s2, Precedence(op1.tokenType));
    BinaryStep(s2, Binary(op1, a, b), precedence);
    LoneOperand(s4, Precedence(op2.tokenType));
  }

  /**
   * A stronger operator on the right nests inside: `a op1 b op2 c` is
   * `(a op1 (b op2 c))` when op2 binds tighter than op1.
   */
  lemma TighterNestsRight(s: PState, precedence: int)
    requires IsAtom(s.Cur()) && IsAtom(At(s.tokens, s.pos + 2))
    requires IsAtom(At(s.tokens, s.pos + 4))
    requires BinaryOperator(s.Peek().tokenType) && BinaryOperator(At(s.tokens, s.pos + 3).tokenType)
    requires Precedence(At(s.tokens, s.pos + 3).tokenType) > Precedence(s.Peek().tokenType) > precedence
    requires Precedence(At(s.tokens, s.pos + 5).tokenType) <= precedence
    ensures var a, b, c := Operand(s.Cur()), Operand(At(s.tokens, s.pos + 2)), Operand(At(s.tokens, s.pos + 4));
            ParseExpression(s, precedence)
              == (Binary(s.Peek(), a, Binary(At(s.tokens, s.pos + 3), b, c)), s.(pos := s.pos + 4))
  {
    var a, b, c := Operand(s.Cur()), Operand(At(s.tokens, s.pos + 2)), Operand(At(s.tokens, s.pos + 4));
    var s2, s4 := s.(pos := s.pos + 2), s.(pos := s.pos + 4);
    var op1, op2 := s.Peek(), At(s.tokens, s.pos + 3);
    AtomOperand(s, precedence);
    BinaryStep(s, a, precedence);
    OneOperator(s2, Precedence(op1.tokenType));
  }

  /**
   * A prefix operator takes only its operand: `-a op b` is `((-a) op b)` for every
   * binary operator, since the operand is parsed at PREFIX strength.
   */
  lemma PrefixBindsTighter(s: PState, precedence: int)
    requires s.Cur().tokenType in {Minus, Exclamation}
    requires IsAtom(s.Peek()) && IsAtom(At(s.tokens, s.pos + 3))
    requires BinaryOperator(At(s.tokens, s.pos + 2).tokenType)
    requires Precedence(At(s.tokens, s.pos + 2).tokenType) > precedence
    requires Precedence(At(s.tokens, s.pos + 4).tokenType) <= precedence
    ensures var a, b := Operand(s.Peek()), Operand(At(s.tokens, s.pos + 3));
            ParseExpression(s, precedence)
              == (Binary(At(s.tokens, s.pos + 2), PrefixExpression(s.Cur(), s.Cur().literal, a), b),
                s.(pos := s.pos + 3))
  {
    var s1, s3 := s.Next(), s.(pos := s.pos + 3);
    var op := At(s.tokens, s.pos + 2);
    var neg := PrefixExpression(s.Cur(), s.Cur().literal, Operand(s.Peek()));
    BinaryOperatorStrength(op.tokenType);
    PrefixOperand(s, precedence);
    BinaryStep(s1, neg, precedence);
    LoneOperand(s3, Precedence(op.tokenType));
  }

  /** Proof helper: a prefix operator on an atom, before an operator weaker than PREFIX. */
  lemma PrefixOperand(s: PState, precedence: int)
    requires s.Cur().tokenType in {Minus, Exclamation} && IsAtom(s.Peek())
    requires Precedence(At(s.tokens, s.pos + 2).tokenType) < PREFIX
    ensures ParseExpression(s, precedence)
         == InfixLoop(s.Next(), PrefixExpression(s.Cur(), s.Cur().literal, Operand(s.Peek())), precedence)
  {
    var s1 := s.Next();
    LoneOperand(s1, PREFIX);
    assert ParsePrefix(s, PrefixExpressionFn) == (PrefixExpression(s.Cur(), s.Cur().literal, Operand(s.Peek())), s1);
  }

  /** Parentheses add no node: `(a)` is `a` itself, with the cursor on the `)`. */
  lemma GroupingAddsNoNode(s: PState, precedence: int)
    requires s.Cur().tokenType == LParen && IsAtom(s.Peek())
    requires At(s.tokens, s.pos + 2).tokenType == RParen
    requires Precedence(At(s.tokens, s.pos + 3).tokenType) <= precedence
    ensures ParseExpression(s, precedence) == (Operand(s.Peek()), s.(pos := s.pos + 2))
  {
    LoneOperand(s.Next(), LOWEST);
    assert ParsePrefix(s, GroupedExpressionFn) == (Operand(s.Peek()), s.(pos := s.pos + 2));
  }

  /**
   * `expectPeek` on a mismatch records exactly the message
   * "expected next token to be T, got U instead" and leaves the cursor alone;
   * on a match it moves on by one token and records nothing.
   */
  lemma ExpectPeekMessages(s: PState, t: TokenType)
    ensures var r := ExpectPeek(s, t);
            Messages(r.1.errors)
              == Messages(s.errors)
              + (if r.0 then [] else ["expected next token to be " + Name(t) + ", got " + Name(s.Peek().tokenType) + " instead"])
    ensures ExpectPeek(s, t).1.pos == if s.Peek().tokenType == t then s.pos + 1 else s.pos
  {
    var r := ExpectPeek(s, t);
    if !r.0 {
      MessagesAppend(s.errors, PeekError(t, s.Peek().tokenType));
    }
  }

  /** Recording one more error adds its message at the end. */
  lemma MessagesAppend(es: seq<ParseError>, e: ParseError)
    ensures Messages(es + [e]) == Messages(es) + [Message(e)]
  {
    assert |Messages(es + [e])| == |Messages(es) + [Message(e)]|;
    forall i | 0 <= i < |es| + 1
      ensures Messages(es + [e])[i] == (Messages(es) + [Message(e)])[i]
    {
    }
  }

  /**
   * A token without a prefix rule gives a nil expression, records
   * "no prefix parse function for T Token Type found" and does not move the cursor.
   */
  lemma NoPrefixRule(s: PState, precedence: int)
    requires PrefixRuleFor(s.Cur().tokenType).None?
    ensures var r := ParseExpression(s, precedence);
            r.0 == NilExpression && r.1.pos == s.pos
            && Messages(r.1.errors)
               == Messages(s.errors) + ["no prefix parse function for " + Name(s.Cur().tokenType) + " Token Type found"]
  {
    MessagesAppend(s.errors, NoPrefixError(s.Cur().tokenType));
  }

  /** A `let` or `return` statement swallows every `;` that follows it. */
  lemma TrailingSemicolonsSwallowed(s: PState)
    requires s.Cur().tokenType in {Let, Return}
    ensures var r := ParseStatement(s);
            r.0 != NilLetStatement ==> r.1.Peek().tokenType != Semicolon
  {
  }

  /** An expression statement swallows at most one `;`. */
  lemma ExpressionStatementOneSemicolon(s: PState)
    ensures var e := ParseExpression(s, LOWEST);
            var r := ParseExpressionStatement(s);
            r.1.pos == (if e.1.Peek().tokenType == Semicolon then e.1.pos + 1 else e.1.pos)
            && r.0 == ExpressionStatement(s.Cur(), e.0)
  {
  }

  /** `()` is the empty argument list, the cursor left on the `)`. */
  lemma EmptyArguments(s: PState)
    requires s.Cur().tokenType == LParen && s.Peek().tokenType == RParen
    ensures ParseCallArguments(s) == ([], s.Next()) && ParseFunctionParameters(s) == ([], s.Next())
  {
  }

  /** After a first argument, `, b` followed by `)` adds `b` and ends the list on `b`. */
  lemma SecondArgument(s1: PState, a: Expression)
    requires s1.Peek().tokenType == Comma && IsAtom(At(s1.tokens, s1.pos + 2))
    requires At(s1.tokens, s1.pos + 3).tokenType == RParen
    ensures ArgumentsLoop(s1, [a]) == ([a, Operand(At(s1.tokens, s1.pos + 2))], s1.(pos := s1.pos + 2))
  {
    var s3 := s1.(pos := s1.pos + 2);
    var b := Operand(At(s1.tokens, s1.pos + 2));
    assert s1.Next().Next() == s3 && s3.Cur() == At(s1.tokens, s1.pos + 2);
    LoneOperand(s3, LOWEST);
    assert ParseExpression(s3, LOWEST) == (b, s3);
    ArgumentsLoopStep(s1, [a]);
    assert ArgumentsLoop(s1, [a]) == ArgumentsLoop(s3, [a] + [b]);
    assert [a] + [b] == [a, b];
    ArgumentsLoopDone(s3, [a, b]);
  }

  /** `(a, b)` is the argument list of the two atoms; the cursor ends on the `)`. */
  lemma TwoArgumentList(s: PState)
    requires s.Cur().tokenType == LParen
    requires IsAtom(s.Peek()) && At(s.tokens, s.pos + 2).tokenType == Comma
    requires IsAtom(At(s.tokens, s.pos + 3)) && At(s.tokens, s.pos + 4).tokenType == RParen
    ensures ParseCallArguments(s) == ([Operand(s.Peek()), Operand(At(s.tokens, s.pos + 3))], s.(pos := s.pos + 4))
  {
    var s1 := s.Next();
    LoneOperand(s1, LOWEST);
    SecondArgument(s1, Operand(s.Peek()));
    var s3 := s.(pos := s.pos + 3);
    assert s3.Peek() == At(s.tokens, s.pos + 4);
    assert ExpectPeek(s3, RParen) == (true, s.(pos := s.pos + 4));
  }

  /** `f(a, b)` calls f with the two atoms; the cursor ends on the `)`. */
  lemma TwoArguments(s: PState, precedence: int)
    requires s.Cur().tokenType == Ident && s.Peek().tokenType == LParen
    requires IsAtom(At(s.tokens, s.pos + 2)) && At(s.tokens, s.pos + 3).tokenType == Comma
    requires IsAtom(At(s.tokens, s.pos + 4)) && At(s.tokens, s.pos + 5).tokenType == RParen
    requires precedence < CALL && Precedence(At(s.tokens, s.pos + 6).tokenType) <= precedence
    ensures ParseExpression(s, precedence)
         == (CallExpression(s.Peek(), Operand(s.Cur()),
                            [Operand(At(s.tokens, s.pos + 2)), Operand(At(s.tokens, s.pos + 4))]),
             s.(pos := s.pos + 5))
  {
    var f := Operand(s.Cur());
    var call := CallExpression(s.Peek(), f, [Operand(At(s.tokens, s.pos + 2)), Operand(At(s.tokens, s.pos + 4))]);
    AtomOperand(s, precedence);
    InfixLoopStep(s, f, precedence);
    TwoArgumentList(s.Next());
    InfixLoopDone(s.(pos := s.pos + 5), call, precedence);
  }

  /**
   * The program loop stops at EOF only, never drops an error and keeps every
   * statement it has collected, including the typed-nil `let`.
   */
  lemma ProgramLoopKeepsStatements(s: PState, program: Program)
    ensures var r := ProgramLoop(s, program);
            r.1.Cur().tokenType == Eof && s.errors <= r.1.errors
            && program.statements <= r.0.statements
            && (s.Cur().tokenType == Eof <==> r.0 == program && r.1 == s)
  {
  }

  /**
   * A `let` whose name is missing is still kept: the typed nil goes into the
   * program and parsing resumes after the token the error was about.
   */
  lemma {:induction false} FailedLetIsKept(s: PState, program: Program)
    requires s.Cur().tokenType == Let && s.Peek().tokenType != Ident
    ensures ProgramLoop(s, program)
         == ProgramLoop(s.(pos := s.pos + 1, errors := s.errors + [PeekError(Ident, s.Peek().tokenType)]),
                        program.(statements := program.statements + [NilLetStatement]))
  {
    var failed := s.(errors := s.errors + [PeekError(Ident, s.Peek().tokenType)]);
    assert ExpectPeek(s, Ident) == (false, failed);
    assert ParseLetStatement(s) == (NilLetStatement, failed);
    assert ParseStatement(s) == (NilLetStatement, failed);
    assert failed.Next() == s.(pos := s.pos + 1, errors := s.errors + [PeekError(Ident, s.Peek().tokenType)]);
  }

  /**
   * An integer literal that the lexer produced is a run of digits, so the only way
   * it fails is `strconv.ParseInt` refusing it (out of int64 range, or a leading 0
   * followed by an 8 or 9).
   */
  lemma LexedIntegerLiteral(s: PState)
    requires s.Cur().tokenType == Int && IntLiteralsAreDigits(s.tokens)
    ensures var r := ParseIntegerLiteral(s);
            r.0 == NilExpression <==> ParseInt(s.Cur().literal).None?
    ensures var r := ParseIntegerLiteral(s);
            r.0 != NilExpression ==> r.0 == IntegerLiteral(s.Cur(), ParseInt(s.Cur().literal).value) && r.1 == s
  {
    assert s.pos < |s.tokens|;
    assert s.Cur() == s.tokens[s.pos];
  }

  /**
   * A whole program `a op1 b op2 c` with op1 at least as strong as op2 is one
   * expression statement `((a op1 b) op2 c)`, parsed without errors.
   */
  lemma FoldedProgram(tokens: seq<Token>)
    requires |tokens| == 5
    requires IsAtom(tokens[0]) && IsAtom(tokens[2]) && IsAtom(tokens[4])
    requires BinaryOperator(tokens[1].tokenType) && BinaryOperator(tokens[3].tokenType)
    requires Precedence(tokens[1].tokenType) >= Precedence(tokens[3].tokenType)
    ensures ParseProgram(tokens)
         == (Program([ExpressionStatement(tokens[0],
                Binary(tokens[3], Binary(tokens[1], Operand(tokens[0]), Operand(tokens[2])), Operand(tokens[4])))]),
             [])
  {
    var s := PState(tokens, 0, []);
    var s4 := s.(pos := 4);
    var e := Binary(tokens[3], Binary(tokens[1], Operand(tokens[0]), Operand(tokens[2])), Operand(tokens[4]));
    BinaryOperatorStrength(tokens[3].tokenType);
    FoldsLeft(s, LOWEST);
    var stmt := ExpressionStatement(tokens[0], e);
    assert ParseStatement(s) == (stmt, s4);
    assert [] + [stmt] == [stmt];
    assert ProgramLoop(s4.Next(), Program([stmt])) == (Program([stmt]), s4.Next());
    assert Messages([]) == [];
  }

  /** An infix node renders as its operands with the operator between, in parentheses. */
  lemma BinaryRendering(op: Token, left: Expression, right: Expression)
    requires left.Renderable() && right.Renderable()
    ensures Binary(op, left, right).Renderable()
    ensures Binary(op, left, right).String() == "(" + left.String() + " " + op.literal + " " + right.String() + ")"
  {
  }

  /** A program of one expression statement renders as that expression. */
  lemma SingleStatementRendering(token: Token, e: Expression)
    requires e.Renderable()
    ensures Program([ExpressionStatement(token, e)]).Renderable()
    ensures Program([ExpressionStatement(token, e)]).String() == e.String()
  {
    var stmts := [ExpressionStatement(token, e)];
    assert stmts[0].Renderable();
    assert Concat(stmts) == e.String() + Concat([]);
  }

  /** An atom renders as its token's literal. */
  lemma OperandRendering(t: Token)
    ensures Operand(t).Renderable() && Operand(t).String() == t.literal
  {
  }

  /** How `((x op1 y) op2 z)` renders: every infix node adds its parentheses and spaces. */
  lemma FoldedRendering(t: Token, x: Expression, op1: Token, y: Expression, op2: Token, z: Expression)
    requires x.Renderable() && y.Renderable() && z.Renderable()
    ensures var e := Binary(op2, Binary(op1, x, y), z);
            var program := Program([ExpressionStatement(t, e)]);
            program.Renderable()
            && program.String()
               == "((" + x.String() + " " + op1.literal + " " + y.String() + ") " + op2.literal + " " + z.String() + ")"
  {
    var xy := Binary(op1, x, y);
    var e := Binary(op2, xy, z);
    BinaryRendering(op1, x, y);
    BinaryRendering(op2, xy, z);
    SingleStatementRendering(t, e);
  }

  /** `a + b - c` is `((a + b) - c)`, the row of the precedence test at parser/parser_test.go:585. */
  lemma AddSubFoldsLeft(tokens: seq<Token>)
    requires tokens == [Token(Ident, "a"), Token(Plus, "+"), Token(Ident, "b"), Token(Minus, "-"), Token(Ident, "c")]
    ensures ParseProgram(tokens).0.Renderable() && ParseProgram(tokens).1 == []
    ensures ParseProgram(tokens).0.String() == "((a + b) - c)"
  {
    FoldedProgram(tokens);
    OperandRendering(tokens[0]);
    OperandRendering(tokens[2]);
    OperandRendering(tokens[4]);
    FoldedRendering(tokens[0], Operand(tokens[0]), tokens[1], Operand(tokens[2]), tokens[3], Operand(tokens[4]));
    assert "((" + "a" + " " + "+" + " " + "b" + ") " + "-" + " " + "c" + ")" == "((a + b) - c)";
  }

  /** The source text `a + b - c`, lexed and parsed, prints as `((a + b) - c)` with no error. */
  lemma AddSubSourceFoldsLeft(source: Bytes)
    requires source == "a + b - c"
    ensures var r := ParseProgram(Lexer.Lex(source, 0));
            r.0.Renderable() && r.1 == [] && r.0.String() == "((a + b) - c)"
  {
    LexerProperties.LexAddSub(source);
    AddSubFoldsLeft(Lexer.Lex(source, 0));
  }
}
