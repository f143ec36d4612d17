/**
 * What the renderings of ast/ast.go promise for whole lists of nodes: statement
 * lists render as the plain concatenation of their statements, argument and
 * element lists are joined by ", ", and operators are parenthesised.
 */
module AstProperties {
  import opened GoStrings
  import opened Ast

  /** Rendering a list of statements is rendering its parts one after the other. */
  lemma {:induction false} ConcatAppend(a: seq<Statement>, b: seq<Statement>)
    requires forall i | 0 <= i < |a| :: a[i].Renderable()
    requires forall i | 0 <= i < |b| :: b[i].Renderable()
    ensures forall i | 0 <= i < |a + b| :: (a + b)[i].Renderable()
    ensures Concat(a + b) == Concat(a) + Concat(b)
    decreases |a|
  {
    if a == [] {
      assert a + b == b;
    } else {
      assert (a + b)[1..] == a[1..] + b;
      ConcatAppend(a[1..], b);
    }
  }

  /**
   * A program, and a block, render as the renderings of their statements with
   * nothing between them, so joining two statement lists joins the renderings.
   */
  lemma ProgramsConcatenate(a: seq<Statement>, b: seq<Statement>, token: Token)
    requires Program(a).Renderable() && Program(b).Renderable()
    ensures Program(a + b).Renderable() && BlockStatement(token, a + b).Renderable()
    ensures Program(a + b).String() == Program(a).String() + Program(b).String()
    ensures BlockStatement(token, a + b).String() == Program(a + b).String()
  {
    ConcatAppend(a, b);
  }

  /** Two expression statements, as in `3 + 4; -5 * 5`, render as the two expressions back to back. */
  lemma TwoExpressionStatements(t: Token, u: Token, x: Expression, y: Expression)
    requires x.Renderable() && y.Renderable()
    ensures Program([ExpressionStatement(t, x), ExpressionStatement(u, y)]).Renderable()
    ensures Program([ExpressionStatement(t, x), ExpressionStatement(u, y)]).String() == x.String() + y.String()
  {
    var last := [ExpressionStatement(u, y)];
    var s := [ExpressionStatement(t, x)] + last;
    assert s == [ExpressionStatement(t, x), ExpressionStatement(u, y)];
    assert s[1..] == last && last[1..] == [];
    assert Concat(last) == y.String() + "" == y.String();
    assert Concat(s) == x.String() + Concat(last);
  }

  /** The renderings of a list of expressions: the entry at each place renders the expression there. */
  lemma {:induction false} StringsAt(es: seq<Expression>, i: nat)
    requires AllRenderable(es) && i < |es|
    ensures Strings(es)[i] == es[i].String()
    decreases i
  {
    if i > 0 {
      assert es[1..][i - 1] == es[i];
      StringsAt(es[1..], i - 1);
    }
  }

  /** Rendering one more expression appends its rendering to the list. */
  lemma {:induction false} StringsSnoc(es: seq<Expression>, x: Expression)
    requires AllRenderable(es) && x.Renderable()
    ensures AllRenderable(es + [x])
    ensures Strings(es + [x]) == Strings(es) + [x.String()]
    decreases |es|
  {
    if es == [] {
      assert es + [x] == [x];
    } else {
      assert (es + [x])[1..] == es[1..] + [x];
      StringsSnoc(es[1..], x);
    }
  }

  /** `strings.Join` puts the separator only between neighbours: a further part comes after one more separator. */
  lemma {:induction false} JoinSnoc(parts: seq<string>, x: string, sep: string)
    requires parts != []
    ensures Join(parts + [x], sep) == Join(parts, sep) + sep + x
    decreases |parts|
  {
    if |parts| == 1 {
      assert parts + [x] == [parts[0], x];
      assert [parts[0], x][1..] == [x];
    } else {
      assert (parts + [x])[1..] == parts[1..] + [x];
      JoinSnoc(parts[1..], x, sep);
    }
  }

  /** A call renders as its callee, then its arguments in parentheses: `add()`, `add(x)`. */
  lemma CallRendering(t: Token, callee: Expression, x: Expression)
    requires callee.Renderable() && x.Renderable()
    ensures CallExpression(t, callee, []).String() == callee.String() + "()"
    ensures CallExpression(t, callee, [x]).String() == callee.String() + "(" + x.String() + ")"
  {
    assert Strings([x]) == [x.String()] by {
      assert [x][1..] == [];
    }
  }

  /**
   * The arguments of a call are joined by ", ": one more argument adds ", "
   * and its rendering before the closing parenthesis.
   */
  lemma CallArgumentAppended(t: Token, callee: Expression, arguments: seq<Expression>, x: Expression)
    requires callee.Renderable() && AllRenderable(arguments) && x.Renderable() && arguments != []
    ensures AllRenderable(arguments + [x])
    ensures CallExpression(t, callee, arguments + [x]).String()
            == callee.String() + "(" + Join(Strings(arguments), ", ") + ", " + x.String() + ")"
  {
    StringsSnoc(arguments, x);
    var j := Join(Strings(arguments), ", ");
    JoinSnoc(Strings(arguments), x.String(), ", ");
    var c := callee.String() + "(";
    assert CallExpression(t, callee, arguments + [x]).String() == c + (j + ", " + x.String()) + ")";
    assert c + (j + ", " + x.String()) == c + j + ", " + x.String();
  }

  /** An array literal renders its elements joined by ", " in brackets; an index expression is parenthesised. */
  lemma CollectionRendering(t: Token, x: Expression, y: Expression)
    requires x.Renderable() && y.Renderable()
    ensures ArrayLiteral(t, []).String() == "[]"
    ensures ArrayLiteral(t, [x, y]).String() == "[" + x.String() + ", " + y.String() + "]"
    ensures IndexExpression(t, x, y).String() == "(" + x.String() + "[" + y.String() + "])"
  {
    var es := [x, y];
    assert es[1..] == [y] && [y][1..] == [];
    assert Strings(es) == [x.String(), y.String()];
    assert [x.String(), y.String()][1..] == [y.String()];
  }

  /**
   * A prefix operator sits against its operand inside parentheses: `!-a` renders
   * "(!(-a))", and `-a` as the left operand of `*` renders "((-a) * b)".
   */
  lemma PrefixRendering(t: Token, u: Token, a: Identifier, op: string, b: Expression)
    requires b.Renderable()
    ensures PrefixExpression(t, "!", PrefixExpression(u, "-", IdentifierExpression(a))).String()
            == "(!(-" + a.value + "))"
    ensures InfixExpression(t, PrefixExpression(u, "-", IdentifierExpression(a)), op, b).String()
            == "((-" + a.value + ") " + op + " " + b.String() + ")"
  {
    var inner := PrefixExpression(u, "-", IdentifierExpression(a));
    assert inner.String() == "(-" + a.value + ")";
    assert PrefixExpression(t, "!", inner).String() == "(!" + inner.String() + ")";
    assert InfixExpression(t, inner, op, b).String() == "(" + inner.String() + " " + op + " " + b.String() + ")";
  }

  /**
   * `let` and `return` render as their keyword's literal, the value and ";",
   * with nothing in the value's place when it is nil; an expression statement
   * renders its expression, or "" when that is nil.
   */
  lemma StatementRenderings(t: Token, name: Identifier, v: Expression)
    requires v.Renderable()
    ensures LetStatement(t, name, v).String() == t.literal + " " + name.value + " = " + v.String() + ";"
    ensures LetStatement(t, name, NilExpression).String() == t.literal + " " + name.value + " = ;"
    ensures ReturnStatement(t, v).String() == t.literal + " " + v.String() + ";"
    ensures ReturnStatement(t, NilExpression).String() == t.literal + " ;"
    ensures ExpressionStatement(t, v).String() == v.String()
    ensures ExpressionStatement(t, NilExpression).String() == ""
  {
    assert t.literal + " " + name.value + " = " + "" + ";" == t.literal + " " + name.value + " = ;";
    assert t.literal + " " + "" + ";" == t.literal + " ;";
  }
}
