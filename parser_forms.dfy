/**
 * The trees the parser builds for its bracketed forms (src/parser/parser.go):
 * parameter lists, argument lists, `if` expressions and function literals, each
 * for every input — the node built when every delimiter is in place, and the nil
 * result with exactly one "expected next token" error where one is missing.
 */
module ParserForms {
  import opened Wrappers
  import opened GoStrings
  import opened Tokens
  import opened Ast
  import opened ParserSpec
  import opened ParserProperties

  /** The identifiers `parseFunctionParameters` makes of the tokens at p, p + 2, …, p + 2(n - 1). */
  function NamesAt(tokens: seq<Token>, p: nat, n: nat): seq<Identifier>
    decreases n
  {
    if n == 0 then [] else [Identifier(At(tokens, p), At(tokens, p).literal)] + NamesAt(tokens, p + 2, n - 1)
  }

  /** The names are the n tokens two apart from p, in order, each named by its literal. */
  lemma {:induction false} NamesAtAre(tokens: seq<Token>, p: nat, n: nat)
    ensures |NamesAt(tokens, p, n)| == n
    ensures forall i | 0 <= i < n :: NamesAt(tokens, p, n)[i] == Identifier(At(tokens, p + 2 * i), At(tokens, p + 2 * i).literal)
    decreases n
  {
    if n > 0 {
      NamesAtAre(tokens, p + 2, n - 1);
      forall i | 0 <= i < n
        ensures NamesAt(tokens, p, n)[i] == Identifier(At(tokens, p + 2 * i), At(tokens, p + 2 * i).literal)
      {
        if i > 0 {
          assert NamesAt(tokens, p, n)[i] == NamesAt(tokens, p + 2, n - 1)[i - 1];
          assert p + 2 + 2 * (i - 1) == p + 2 * i;
        }
      }
    }
  }

  /**
   * n names follow the token at p, each after a comma: commas at p + 1, p + 3, …,
   * p + 2n - 1, and no comma at p + 2n + 1.
   */
  predicate CommaSeparated(tokens: seq<Token>, p: nat, n: nat)
    decreases n
  {
    if n == 0 then At(tokens, p + 1).tokenType != Comma
    else At(tokens, p + 1).tokenType == Comma && CommaSeparated(tokens, p + 2, n - 1)
  }

  /** The parameter loop takes the token after each comma as a name, until no comma follows. */
  lemma {:induction false} ParametersLoopCollects(s: PState, identifiers: seq<Identifier>, n: nat)
    requires CommaSeparated(s.tokens, s.pos, n)
    ensures ParametersLoop(s, identifiers) == (identifiers + NamesAt(s.tokens, s.pos + 2, n), s.(pos := s.pos + 2 * n))
    decreases n
  {
    if n == 0 {
      assert identifiers + [] == identifiers;
    } else {
      var s2 := s.(pos := s.pos + 2);
      assert s.Next().Next() == s2;
      var name := Identifier(s2.Cur(), s2.Cur().literal);
      assert ParametersLoop(s, identifiers) == ParametersLoop(s2, identifiers + [name]);
      ParametersLoopCollects(s2, identifiers + [name], n - 1);
      assert s2.(pos := s2.pos + 2 * (n - 1)) == s.(pos := s.pos + 2 * n);
      var rest := NamesAt(s.tokens, s.pos + 4, n - 1);
      assert NamesAt(s.tokens, s.pos + 2, n) == [name] + rest;
      assert identifiers + [name] + rest == identifiers + ([name] + rest);
    }
  }

  /**
   * `fn(x1, …, xn)` with n >= 1: the list is the n names in order when `)` follows
   * the last one, with `)` current and no error; otherwise it is empty (Go's nil
   * slice) and one error about the missing `)` is recorded, with the last name current.
   */
  lemma ParameterListForms(s: PState, n: nat)
    requires s.Peek().tokenType != RParen && n >= 1
    requires CommaSeparated(s.tokens, s.pos + 1, n - 1)
    ensures var close := At(s.tokens, s.pos + 2 * n);
            ParseFunctionParameters(s)
              == if close.tokenType == RParen then (NamesAt(s.tokens, s.pos + 1, n), s.(pos := s.pos + 2 * n))
                 else ([], s.(pos := s.pos + 2 * n - 1, errors := s.errors + [PeekError(RParen, close.tokenType)]))
  {
    var s1 := s.Next();
    var first := Identifier(s1.Cur(), s1.Cur().literal);
    var last := s.(pos := s.pos + 2 * n - 1);
    ParametersLoopCollects(s1, [first], n - 1);
    assert s1.(pos := s1.pos + 2 * (n - 1)) == last;
    var names := ParametersLoop(s1, [first]);
    assert names == ([first] + NamesAt(s.tokens, s.pos + 3, n - 1), last);
    assert names.0 == NamesAt(s.tokens, s.pos + 1, n);
    var close := ExpectPeek(last, RParen);
    assert ParseFunctionParameters(s) == (if close.0 then names.0 else [], close.1);
  }

  /**
   * The argument loop collects exactly the expressions parsed after each comma:
   * when from states[i] a comma follows and the expression after it parses to
   * es[i], ending in states[i + 1], and no comma follows the last state, the loop
   * appends es in order and stops in the last state.
   */
  lemma {:induction false} ArgumentsLoopCollects(arguments: seq<Expression>, es: seq<Expression>, states: seq<PState>)
    requires |states| == |es| + 1
    requires forall i | 0 <= i < |es| ::
               states[i].Peek().tokenType == Comma && ParseExpression(states[i].Next().Next(), LOWEST) == (es[i], states[i + 1])
    requires states[|es|].Peek().tokenType != Comma
    ensures ArgumentsLoop(states[0], arguments) == (arguments + es, states[|es|])
    decreases |es|
  {
    if es == [] {
      ArgumentsLoopDone(states[0], arguments);
      assert arguments + es == arguments;
    } else {
      ArgumentsLoopStep(states[0], arguments);
      assert ParseExpression(states[0].Next().Next(), LOWEST) == (es[0], states[1]);
      forall i | 0 <= i < |es[1..]|
        ensures states[1..][i].Peek().tokenType == Comma
                && ParseExpression(states[1..][i].Next().Next(), LOWEST) == (es[1..][i], states[1..][i + 1])
      {
        assert states[1..][i] == states[i + 1] && es[1..][i] == es[i + 1] && states[1..][i + 1] == states[i + 2];
      }
      ArgumentsLoopCollects(arguments + [es[0]], es[1..], states[1..]);
      assert arguments + [es[0]] + es[1..] == arguments + es;
    }
  }

  /**
   * `f(e0, e1, …, en)`: when the first argument parses to e0, ending in states[0],
   * and each later one, after a comma, to es[i], ending in states[i + 1], the list
   * is [e0] + es with `)` current when `)` follows the last argument; otherwise it
   * is empty and one error about the missing `)` is recorded, with the cursor
   * where the last argument ended.
   */
  lemma ArgumentListForms(s: PState, first: Expression, es: seq<Expression>, states: seq<PState>)
    requires s.Cur().tokenType == LParen && s.Peek().tokenType != RParen
    requires |states| == |es| + 1
    requires ParseExpression(s.Next(), LOWEST) == (first, states[0])
    requires forall i | 0 <= i < |es| ::
               states[i].Peek().tokenType == Comma && ParseExpression(states[i].Next().Next(), LOWEST) == (es[i], states[i + 1])
    requires states[|es|].Peek().tokenType != Comma
    ensures var last := states[|es|];
            ParseCallArguments(s)
              == if last.Peek().tokenType == RParen then ([first] + es, last.Next())
                 else ([], last.(errors := last.errors + [PeekError(RParen, last.Peek().tokenType)]))
  {
    ArgumentsLoopCollects([first], es, states);
  }

  /** `, a op b` followed by `,` or `)`: the argument after the comma is the infix expression of the two atoms. */
  lemma InfixArgument(t: PState)
    requires IsAtom(At(t.tokens, t.pos + 2)) && BinaryOperator(At(t.tokens, t.pos + 3).tokenType)
    requires IsAtom(At(t.tokens, t.pos + 4)) && At(t.tokens, t.pos + 5).tokenType in {Comma, RParen}
    ensures ParseExpression(t.Next().Next(), LOWEST)
         == (Binary(At(t.tokens, t.pos + 3), Operand(At(t.tokens, t.pos + 2)), Operand(At(t.tokens, t.pos + 4))),
             t.(pos := t.pos + 4))
  {
    PrecedenceOrder(At(t.tokens, t.pos + 5).tokenType);
    BinaryOperatorStrength(At(t.tokens, t.pos + 3).tokenType);
    assert t.Next().Next() == t.(pos := t.pos + 2);
    OneOperator(t.(pos := t.pos + 2), LOWEST);
  }

  /** A one-digit literal other than `0` is an atom whose node holds the digit's value. */
  lemma DigitAtom(d: char)
    requires '1' <= d <= '9'
    ensures IsAtom(Token(Int, [d])) && Operand(Token(Int, [d])) == IntegerLiteral(Token(Int, [d]), d as int - '0' as int)
  {
    assert [d][..0] == [];
    assert DigitsValue([d], 10) == d as int - '0' as int;
    assert !HasDigitOutside([d], 10);
  }

  /** The literal of the digit d as the parser's node. */
  function DigitLiteral(d: char): Expression
  {
    IntegerLiteral(Token(Int, [d]), d as int - '0' as int)
  }

  /** A one-digit literal followed by `,` or `)` is an argument on its own. */
  lemma DigitArgument(t: PState, d: char)
    requires '1' <= d <= '9' && t.Cur() == Token(Int, [d]) && t.Peek().tokenType in {Comma, RParen}
    ensures ParseExpression(t, LOWEST) == (DigitLiteral(d), t)
  {
    DigitAtom(d);
    PrecedenceOrder(t.Peek().tokenType);
    LoneOperand(t, LOWEST);
  }

  /** `, d1 op d2` followed by `,` or `)`: the argument after the comma is `(d1 op d2)`. */
  lemma DigitInfixArgument(t: PState, d1: char, op: Token, d2: char)
    requires '1' <= d1 <= '9' && '1' <= d2 <= '9' && BinaryOperator(op.tokenType)
    requires At(t.tokens, t.pos + 2) == Token(Int, [d1]) && At(t.tokens, t.pos + 3) == op
    requires At(t.tokens, t.pos + 4) == Token(Int, [d2]) && At(t.tokens, t.pos + 5).tokenType in {Comma, RParen}
    ensures ParseExpression(t.Next().Next(), LOWEST) == (Binary(op, DigitLiteral(d1), DigitLiteral(d2)), t.(pos := t.pos + 4))
  {
    DigitAtom(d1);
    DigitAtom(d2);
    InfixArgument(t);
  }

  /** Two arguments after commas, each parsed on its own, are appended in order. */
  lemma TwoLaterArguments(t: PState, arguments: seq<Expression>, x: Expression, t1: PState, y: Expression, t2: PState)
    requires t.Peek().tokenType == Comma && ParseExpression(t.Next().Next(), LOWEST) == (x, t1)
    requires t1.Peek().tokenType == Comma && ParseExpression(t1.Next().Next(), LOWEST) == (y, t2)
    requires t2.Peek().tokenType != Comma
    ensures ArgumentsLoop(t, arguments) == (arguments + [x, y], t2)
  {
    ArgumentsLoopCollects(arguments, [x, y], [t, t1, t2]);
  }

  /** A first argument followed by a loop that collects two more, then `)`: the three arguments in order. */
  lemma ThreeArgumentList(s: PState, x: Expression, y: Expression, z: Expression, s1: PState, last: PState)
    requires s.Cur().tokenType == LParen && s.Peek().tokenType != RParen
    requires ParseExpression(s.Next(), LOWEST) == (x, s1)
    requires ArgumentsLoop(s1, [x]) == ([x] + [y, z], last)
    requires last.Peek().tokenType == RParen
    ensures ParseCallArguments(s) == ([x, y, z], last.Next())
  {
    assert [x] + [y, z] == [x, y, z];
  }

  /**
   * The argument list of `add(1, 2 * 3, 4 + 5)`, the call of parser/parser_test.go:839:
   * the integer 1 and the infix expressions `2 * 3` and
   * `4 + 5`, in order, with the `)` current.
   */
  lemma AddCallArguments(s: PState)
    requires s.Cur() == Token(LParen, "(") && s.Peek() == Token(Int, "1")
    requires At(s.tokens, s.pos + 2) == Token(Comma, ",")
    requires At(s.tokens, s.pos + 3) == Token(Int, "2") && At(s.tokens, s.pos + 4) == Token(Star, "*")
    requires At(s.tokens, s.pos + 5) == Token(Int, "3") && At(s.tokens, s.pos + 6) == Token(Comma, ",")
    requires At(s.tokens, s.pos + 7) == Token(Int, "4") && At(s.tokens, s.pos + 8) == Token(Plus, "+")
    requires At(s.tokens, s.pos + 9) == Token(Int, "5") && At(s.tokens, s.pos + 10) == Token(RParen, ")")
    ensures ParseCallArguments(s)
         == ([DigitLiteral('1'),
              Binary(Token(Star, "*"), DigitLiteral('2'), DigitLiteral('3')),
              Binary(Token(Plus, "+"), DigitLiteral('4'), DigitLiteral('5'))],
             s.(pos := s.pos + 10))
  {
    var s1, s5, s9 := s.Next(), s.(pos := s.pos + 5), s.(pos := s.pos + 9);
    var first := DigitLiteral('1');
    var second := Binary(Token(Star, "*"), DigitLiteral('2'), DigitLiteral('3'));
    var third := Binary(Token(Plus, "+"), DigitLiteral('4'), DigitLiteral('5'));
    DigitArgument(s1, '1');
    DigitInfixArgument(s1, '2', Token(Star, "*"), '3');
    DigitInfixArgument(s5, '4', Token(Plus, "+"), '5');
    TwoLaterArguments(s1, [first], second, s5, third, s9);
    ThreeArgumentList(s, first, second, third, s1, s9);
  }

  /**
   * The end of an if expression, after the consequence block: no `else` leaves the
   * alternative absent and the cursor where it is; `else {` makes the next block
   * the alternative; `else` without `{` gives nil and one error about the `{`.
   */
  lemma ElseForms(s: PState, token: Token, condition: Expression, consequence: BlockStatement)
    ensures s.Peek().tokenType != Else ==>
              ParseElse(s, token, condition, consequence) == (IfExpression(token, condition, consequence, None), s)
    ensures s.Peek().tokenType == Else && At(s.tokens, s.pos + 2).tokenType == LBrace ==>
              var alternative := ParseBlockStatement(s.(pos := s.pos + 2));
              ParseElse(s, token, condition, consequence)
                == (IfExpression(token, condition, consequence, Some(alternative.0)), alternative.1)
    ensures var brace := At(s.tokens, s.pos + 2);
            s.Peek().tokenType == Else && brace.tokenType != LBrace ==>
              ParseElse(s, token, condition, consequence)
                == (NilExpression, s.(pos := s.pos + 1, errors := s.errors + [PeekError(LBrace, brace.tokenType)]))
  {
    assert s.Next().Next() == s.(pos := s.pos + 2);
  }

  /**
   * After the condition of an if expression: a missing `)`, or a missing `{`
   * after it, gives nil and one error; with both, the consequence block is
   * parsed from the `{` and the rest is the optional `else`.
   */
  lemma IfConditionForms(s: PState, token: Token, condition: Expression)
    ensures s.Peek().tokenType != RParen ==>
              ParseIfCondition(s, token, condition) == (NilExpression, s.(errors := s.errors + [PeekError(RParen, s.Peek().tokenType)]))
    ensures var brace := At(s.tokens, s.pos + 2);
            s.Peek().tokenType == RParen && brace.tokenType != LBrace ==>
              ParseIfCondition(s, token, condition)
                == (NilExpression, s.(pos := s.pos + 1, errors := s.errors + [PeekError(LBrace, brace.tokenType)]))
    ensures s.Peek().tokenType == RParen && At(s.tokens, s.pos + 2).tokenType == LBrace ==>
              var consequence := ParseBlockStatement(s.(pos := s.pos + 2));
              ParseIfCondition(s, token, condition) == ParseElse(consequence.1, token, condition, consequence.0)
  {
    assert s.Next().Next() == s.(pos := s.pos + 2);
  }

  /**
   * The start of an if expression: without `(` after `if` the result is nil with
   * one error; with it, the condition is parsed from the token after `(` and the
   * if expression's own token is the `if`.
   */
  lemma IfOpenForms(s: PState)
    requires s.Cur().tokenType == If
    ensures s.Peek().tokenType != LParen ==>
              ParseIfExpression(s) == (NilExpression, s.(errors := s.errors + [PeekError(LParen, s.Peek().tokenType)]))
    ensures s.Peek().tokenType == LParen ==>
              var c := ParseExpression(s.(pos := s.pos + 2), LOWEST);
              ParseIfExpression(s) == ParseIfCondition(c.1, s.Cur(), c.0)
  {
    assert s.Next().Next() == s.(pos := s.pos + 2);
  }

  /**
   * A well-formed start `if (c) {` hands over to the optional `else` after the
   * consequence block, with the `if` token, the condition parsed from the token
   * after `(`, and that block.
   */
  lemma IfReachesElse(s: PState, condition: Expression, after: PState)
    requires s.Cur().tokenType == If && s.Peek().tokenType == LParen
    requires ParseExpression(s.(pos := s.pos + 2), LOWEST) == (condition, after)
    requires after.Peek().tokenType == RParen && At(after.tokens, after.pos + 2).tokenType == LBrace
    ensures var consequence := ParseBlockStatement(after.(pos := after.pos + 2));
            ParseIfExpression(s) == ParseElse(consequence.1, s.Cur(), condition, consequence.0)
  {
    IfOpenForms(s);
    assert ParseIfExpression(s) == ParseIfCondition(after, s.Cur(), condition);
    IfConditionForms(after, s.Cur(), condition);
  }

  /**
   * `if (c) { … }` end to end: with `(` after `if`, the condition parsed from the
   * token after it, then `)` and `{`, and no `else` after the consequence block,
   * the result is an IfExpression of the condition and that block with no
   * alternative, and the block's `}` current.
   */
  lemma IfExpressionForms(s: PState, condition: Expression, after: PState, consequence: BlockStatement, rest: PState)
    requires s.Cur().tokenType == If && s.Peek().tokenType == LParen
    requires ParseExpression(s.(pos := s.pos + 2), LOWEST) == (condition, after)
    requires after.Peek().tokenType == RParen && At(after.tokens, after.pos + 2).tokenType == LBrace
    requires ParseBlockStatement(after.(pos := after.pos + 2)) == (consequence, rest)
    requires rest.Peek().tokenType != Else
    ensures ParseIfExpression(s) == (IfExpression(s.Cur(), condition, consequence, None), rest)
    ensures rest.Cur().tokenType in {RBrace, Eof}
  {
    IfReachesElse(s, condition, after);
    ElseForms(rest, s.Cur(), condition, consequence);
  }

  /**
   * `if (c) { … } else { … }` end to end: as above, and when `else {` follows the
   * consequence block the alternative is the next block, with its `}` current.
   */
  lemma IfElseExpressionForms(s: PState, condition: Expression, after: PState, consequence: BlockStatement, rest: PState)
    requires s.Cur().tokenType == If && s.Peek().tokenType == LParen
    requires ParseExpression(s.(pos := s.pos + 2), LOWEST) == (condition, after)
    requires after.Peek().tokenType == RParen && At(after.tokens, after.pos + 2).tokenType == LBrace
    requires ParseBlockStatement(after.(pos := after.pos + 2)) == (consequence, rest)
    requires rest.Peek().tokenType == Else && At(rest.tokens, rest.pos + 2).tokenType == LBrace
    ensures var alternative := ParseBlockStatement(rest.(pos := rest.pos + 2));
            ParseIfExpression(s) == (IfExpression(s.Cur(), condition, consequence, Some(alternative.0)), alternative.1)
            && alternative.1.Cur().tokenType in {RBrace, Eof}
  {
    IfReachesElse(s, condition, after);
    ElseForms(rest, s.Cur(), condition, consequence);
  }

  /**
   * An if expression whose consequence is followed by `else` but no `{` is nil,
   * with one error about the `{` and the `else` current.
   */
  lemma IfElseFailure(s: PState, condition: Expression, after: PState, consequence: BlockStatement, rest: PState)
    requires s.Cur().tokenType == If && s.Peek().tokenType == LParen
    requires ParseExpression(s.(pos := s.pos + 2), LOWEST) == (condition, after)
    requires after.Peek().tokenType == RParen && At(after.tokens, after.pos + 2).tokenType == LBrace
    requires ParseBlockStatement(after.(pos := after.pos + 2)) == (consequence, rest)
    requires rest.Peek().tokenType == Else && At(rest.tokens, rest.pos + 2).tokenType != LBrace
    ensures ParseIfExpression(s)
              == (NilExpression, rest.(pos := rest.pos + 1, errors := rest.errors + [PeekError(LBrace, At(rest.tokens, rest.pos + 2).tokenType)]))
  {
    IfReachesElse(s, condition, after);
    ElseForms(rest, s.Cur(), condition, consequence);
  }

  /**
   * `fn (…) { … }`: with `(` after `fn` and `{` after the parameter list, the
   * result is a FunctionLiteral of the parameters and the body block, with the
   * body's `}` current; a missing `(` or `{` gives nil and one error.
   */
  lemma FunctionLiteralForms(s: PState)
    requires s.Cur().tokenType == Function
    ensures s.Peek().tokenType != LParen ==>
              ParseFunctionLiteral(s) == (NilExpression, s.(errors := s.errors + [PeekError(LParen, s.Peek().tokenType)]))
    ensures var parameters := ParseFunctionParameters(s.Next());
            var p := parameters.1;
            s.Peek().tokenType == LParen && p.Peek().tokenType != LBrace ==>
              ParseFunctionLiteral(s) == (NilExpression, p.(errors := p.errors + [PeekError(LBrace, p.Peek().tokenType)]))
    ensures var parameters := ParseFunctionParameters(s.Next());
            var p := parameters.1;
            s.Peek().tokenType == LParen && p.Peek().tokenType == LBrace ==>
              var body := ParseBlockStatement(p.Next());
              ParseFunctionLiteral(s) == (FunctionLiteral(s.Cur(), parameters.0, body.0), body.1)
              && body.1.Cur().tokenType in {RBrace, Eof}
  {
  }
}
