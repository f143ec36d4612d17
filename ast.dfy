/**
 * The syntax tree (ast/ast.go) with each node's `String()` and `TokenLiteral()`.
 * A Go interface holding nil is a node of its own here: `NilExpression` for a nil
 * Expression and `NilLetStatement` for the typed-nil `*LetStatement` a failed
 * `let` parse produces. Calling a method on them panics in Go, so `String()` and
 * `TokenLiteral()` require trees that do not reach one.
 */
module Ast {
  import opened Wrappers
  import opened GoStrings
  import Tokens

  type Token = Tokens.Token

  datatype Identifier = Identifier(token: Token, value: string)
  {
    function String(): string { value }
    function TokenLiteral(): string { token.literal }
  }

  datatype Expression =
    | IdentifierExpression(id: Identifier)
    | IntegerLiteral(token: Token, intValue: Int64)
    /** Go's `ast.Boolean`. */
    | BooleanLiteral(token: Token, boolValue: bool)
    | StringLiteral(token: Token, strValue: Bytes)
    | ArrayLiteral(token: Token, elements: seq<Expression>)
    | IndexExpression(token: Token, left: Expression, index: Expression)
    | PrefixExpression(token: Token, operator: string, right: Expression)
    | InfixExpression(token: Token, left: Expression, operator: string, right: Expression)
    | IfExpression(token: Token, condition: Expression, consequence: BlockStatement,
                   alternative: Option<BlockStatement>)
    | FunctionLiteral(token: Token, parameters: seq<Identifier>, body: BlockStatement)
    | CallExpression(token: Token, callee: Expression, arguments: seq<Expression>)
    /** A nil `ast.Expression`. */
    | NilExpression
  {
    /** `String()` reaches no nil expression, so it does not panic. */
    predicate Renderable()
    {
      match this
      case IdentifierExpression(_) => true
      case IntegerLiteral(_, _) => true
      case BooleanLiteral(_, _) => true
      case StringLiteral(_, _) => true
      case ArrayLiteral(_, elements) => AllRenderable(elements)
      case IndexExpression(_, left, index) => left.Renderable() && index.Renderable()
      case PrefixExpression(_, _, right) => right.Renderable()
      case InfixExpression(_, left, _, right) => left.Renderable() && right.Renderable()
      case IfExpression(_, condition, consequence, alternative) =>
        condition.Renderable() && consequence.Renderable()
        && (alternative.Some? ==> alternative.value.Renderable())
      case FunctionLiteral(_, _, body) => body.Renderable()
      case CallExpression(_, callee, arguments) => callee.Renderable() && AllRenderable(arguments)
      case NilExpression => false
    }

    function String(): string
      requires Renderable()
    {
      match this
      case IdentifierExpression(id) => id.String()
      case IntegerLiteral(token, _) => token.literal
      case BooleanLiteral(token, _) => token.literal
      case StringLiteral(token, _) => token.literal
      case ArrayLiteral(_, elements) => "[" + Join(Strings(elements), ", ") + "]"
      case IndexExpression(_, left, index) => "(" + left.String() + "[" + index.String() + "])"
      case PrefixExpression(_, operator, right) => "(" + operator + right.String() + ")"
      case InfixExpression(_, left, operator, right) =>
        "(" + left.String() + " " + operator + " " + right.String() + ")"
      case IfExpression(_, condition, consequence, alternative) =>
        "if" + condition.String() + " " + consequence.String()
        + (if alternative.Some? then "else" + alternative.value.String() else "")
      case FunctionLiteral(token, parameters, body) =>
        token.literal + "(" + Join(IdentifierStrings(parameters), ", ") + ") " + "{ " + body.String() + "}"
      case CallExpression(_, callee, arguments) =>
        callee.String() + "(" + Join(Strings(arguments), ", ") + ")"
    }

    function TokenLiteral(): string
      requires !NilExpression?
    {
      if IdentifierExpression? then id.TokenLiteral() else token.literal
    }
  }

  predicate AllRenderable(es: seq<Expression>)
  {
    forall i | 0 <= i < |es| :: es[i].Renderable()
  }

  /** The renderings of a list of expressions, in order. */
  function Strings(es: seq<Expression>): (ss: seq<string>)
    requires AllRenderable(es)
    ensures |ss| == |es|
  {
    if es == [] then [] else [es[0].String()] + Strings(es[1..])
  }

  function IdentifierStrings(ids: seq<Identifier>): (ss: seq<string>)
    ensures |ss| == |ids| && forall i | 0 <= i < |ids| :: ss[i] == ids[i].value
  {
    if ids == [] then [] else [ids[0].String()] + IdentifierStrings(ids[1..])
  }

  datatype Statement =
    | LetStatement(token: Token, name: Identifier, value: Expression)
    /** A typed-nil `*ast.LetStatement` (what a failed `let` parse returns). */
    | NilLetStatement
    | ReturnStatement(token: Token, returnValue: Expression)
    | ExpressionStatement(token: Token, expression: Expression)
  {
    predicate Renderable()
    {
      match this
      case LetStatement(_, _, value) => value.NilExpression? || value.Renderable()
      case NilLetStatement => false
      case ReturnStatement(_, returnValue) => returnValue.NilExpression? || returnValue.Renderable()
      case ExpressionStatement(_, expression) => expression.NilExpression? || expression.Renderable()
    }

    function String(): string
      requires Renderable()
    {
      match this
      case LetStatement(token, name, value) =>
        token.literal + " " + name.String() + " = "
        + (if value.NilExpression? then "" else value.String()) + ";"
      case ReturnStatement(token, returnValue) =>
        token.literal + " " + (if returnValue.NilExpression? then "" else returnValue.String()) + ";"
      case ExpressionStatement(_, expression) =>
        if expression.NilExpression? then "" else expression.String()
    }

    function TokenLiteral(): string
      requires !NilLetStatement?
    {
      token.literal
    }
  }

  datatype BlockStatement = BlockStatement(token: Token, statements: seq<Statement>)
  {
    predicate Renderable()
    {
      forall i | 0 <= i < |statements| :: statements[i].Renderable()
    }

    /** The statements' renderings, concatenated. */
    function String(): string
      requires Renderable()
    {
      Concat(statements)
    }

    function TokenLiteral(): string { token.literal }
  }

  /** The renderings of a list of statements, concatenated with nothing between them. */
  function Concat(ss: seq<Statement>): string
    requires forall i | 0 <= i < |ss| :: ss[i].Renderable()
  {
    if ss == [] then "" else ss[0].String() + Concat(ss[1..])
  }

  datatype Program = Program(statements: seq<Statement>)
  {
    predicate Renderable()
    {
      forall i | 0 <= i < |statements| :: statements[i].Renderable()
    }

    function String(): string
      requires Renderable()
    {
      Concat(statements)
    }

    /** The first statement's token literal, or "" for an empty program. */
    function TokenLiteral(): (lit: string)
      requires statements != [] ==> !statements[0].NilLetStatement?
      ensures statements == [] ==> lit == ""
      ensures statements != [] ==> lit == statements[0].TokenLiteral()
    {
      if |statements| > 0 then statements[0].TokenLiteral() else ""
    }
  }
}
