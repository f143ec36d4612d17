/**
 * What `Eval` (evaluator/evaluator.go) computes, as functions of the node, the
 * number of the environment it runs in and the heap before it; each returns
 * the outcome and the heap after it.
 *
 * `fuel` bounds the nesting depth of `Eval` calls: each of EvalExpression,
 * EvalStatement, EvalBlock and EvalProgram spends one unit and hands the rest
 * to the evaluations nested inside it, and a nested call with none left ends in
 * `OutOfFuel`. A Go program that recurses forever exhausts its stack instead.
 *
 * The operator helpers are pure, as in the source: PrefixOutcome, InfixOutcome,
 * IntegerInfix, StringInfix, Truthy, Bang and Unwrap.
 */
module EvaluatorSpec {
  import opened Wrappers
  import opened GoStrings
  import opened Ast
  import opened Objects
  import opened Environments
  import Builtins

  /** `isError`: only an Error object; the nil interface is not one. */
  predicate IsError(v: Value)
  {
    v.Error?
  }

  /** `truthy`: false exactly for the shared NIL, FALSE and ZERO. */
  predicate Truthy(v: Value)
  {
    !(v == Nil || v == Boolean(false) || v == Zero)
  }

  /** `evalExclamationOperatorExpression`: compares with TRUE, FALSE and NIL only. */
  function Bang(v: Value): (r: Value)
    ensures r.Boolean?
  {
    if v == Boolean(true) then Boolean(false)
    else if v == Boolean(false) || v == Nil then Boolean(true)
    else Boolean(false)
  }

  /** `unwrapReturnValue`. */
  function Unwrap(v: Value): Value
  {
    if v.ReturnValue? then v.value else v
  }

  function UnknownOperator(left: Value, operator: string, right: Value): Value
    requires !left.Null? && !right.Null?
  {
    Error("unknown operator: " + left.Type() + " " + operator + " " + right.Type())
  }

  /** `evalPrefixExpression`. */
  function PrefixOutcome(operator: string, right: Value): Outcome<Value>
  {
    if operator == "!" then Normal(Bang(right))
    else if right.Null? then Panicked(NilDereference)
    else if operator == "-" then
      if right.Type() != "INTEGER" then Normal(Error("unknown operator: -" + right.Type()))
      else Normal(Integer(Wrap64(-(right.IntValue() as int))))
    else Normal(Error("unknown operator: " + operator + right.Type()))
  }

  /** `evalIntegerInfixExpression`: int64 arithmetic and comparisons. */
  function IntegerInfix(operator: string, left: Value, right: Value): Outcome<Value>
    requires (left.Zero? || left.Integer?) && (right.Zero? || right.Integer?)
  {
    var l: int, r: int := left.IntValue(), right.IntValue();
    match operator
    case "+" => Normal(Integer(Wrap64(l + r)))
    case "-" => Normal(Integer(Wrap64(l - r)))
    case "*" => Normal(Integer(Wrap64(l * r)))
    case "/" =>
      if right.Zero? then Normal(Error("division by zero: it is impossible to divide by zero"))
      else if r == 0 then Panicked(IntegerDivideByZero)
      else Normal(Integer(Wrap64(TruncDiv(l, r))))
    case ">" => Normal(NativeBool(l > r))
    case "<" => Normal(NativeBool(l < r))
    case "==" => Normal(NativeBool(l == r))
    case "!=" => Normal(NativeBool(l != r))
    case _ => Normal(UnknownOperator(left, operator, right))
  }

  /** `str` written `count` times (none when `count` is not positive). */
  function Repeat(str: Bytes, count: int): (r: Bytes)
    decreases count
  {
    if count <= 0 then "" else Repeat(str, count - 1) + str
  }

  /** Whether the string rules apply: a STRING with a STRING or an INTEGER, either way round. */
  predicate StringOperands(left: Value, right: Value)
  {
    (left.String? && (right.String? || right.Zero? || right.Integer?))
    || (right.String? && (left.Zero? || left.Integer?))
  }

  /**
   * `evalStringInfixExpression`. `+` asserts both operands are strings and `*`
   * takes the count from an Integer on the left, else from the right; a
   * failed assertion panics.
   */
  function StringInfix(operator: string, left: Value, right: Value): Outcome<Value>
    requires StringOperands(left, right)
  {
    if operator == "+" then
      if left.String? && right.String? then Normal(String(left.strValue + right.strValue))
      else Panicked(FailedTypeAssertion)
    else if operator == "*" then
      if left.Zero? || left.Integer? then Normal(String(Repeat(right.strValue, left.IntValue())))
      else if right.Zero? || right.Integer? then Normal(String(Repeat(left.strValue, right.IntValue())))
      else Panicked(FailedTypeAssertion)
    else Normal(UnknownOperator(left, operator, right))
  }

  /**
   * `evalInfixExpression`: integer rules, then string rules, then identity for
   * `==` and `!=`, then the type-mismatch and unknown-operator errors. Any rule
   * asks a nil operand for its type, which panics.
   */
  function InfixOutcome(operator: string, left: Value, right: Value): Outcome<Value>
  {
    if left.Null? || right.Null? then Panicked(NilDereference)
    else if left.Type() == "INTEGER" && right.Type() == "INTEGER" then IntegerInfix(operator, left, right)
    else if StringOperands(left, right) then StringInfix(operator, left, right)
    else if operator == "==" then Normal(NativeBool(Identical(left, right)))
    else if operator == "!=" then Normal(NativeBool(!Identical(left, right)))
    else if left.Type() != right.Type() then
      Normal(Error("type mismatch: " + left.Type() + " " + operator + " " + right.Type()))
    else Normal(UnknownOperator(left, operator, right))
  }

  /** `evalIdentifier`: the builtins table first, then the environment chain. */
  function EvalIdentifier(name: string, env: nat, h: HeapState): Value
  {
    match Builtins.Named(name)
    case Some(b) => Builtin(b)
    case None =>
      match h.Get(env, name)
      case Some(v) => v
      case None => Error("identifier not found: " + name)
  }

  /** `extendFunctionEnv`'s loop from parameter `i` on: binds each to its argument, in order. */
  function BindParameters(parameters: seq<Identifier>, args: seq<Value>, i: nat, env: nat, h: HeapState): HeapState
    requires i <= |parameters| <= |args|
    decreases |parameters| - i
  {
    if i == |parameters| then h
    else BindParameters(parameters, args, i + 1, env, h.Set(env, parameters[i].value, args[i]))
  }

  /** Passes a panic or exhaustion on, changing only the result type. */
  function Abrupt<T, U>(o: Outcome<T>): Outcome<U>
    requires !o.Normal?
  {
    if o.Panicked? then Panicked(o.panic) else OutOfFuel
  }

  /** `Eval` of an expression node. */
  function EvalExpression(e: Expression, env: nat, h: HeapState, fuel: nat): (Outcome<Value>, HeapState)
    decreases fuel, 0, 0
  {
    if fuel == 0 then (OutOfFuel, h)
    else
      match e
      case IdentifierExpression(id) => (Normal(EvalIdentifier(id.value, env, h)), h)
      case IntegerLiteral(_, v) => (Normal(if v == 0 then Zero else Integer(v)), h)
      case BooleanLiteral(_, b) => (Normal(NativeBool(b)), h)
      case StringLiteral(_, s) => (Normal(String(s)), h)
      case PrefixExpression(_, operator, right) => EvalPrefix(operator, right, env, h, fuel - 1)
      case InfixExpression(_, left, operator, right) => EvalInfix(left, operator, right, env, h, fuel - 1)
      case IfExpression(_, condition, consequence, alternative) =>
        EvalIf(condition, consequence, alternative, env, h, fuel - 1)
      case FunctionLiteral(_, parameters, body) =>
        var (id, h') := h.Allocate();
        (Normal(Function(parameters, body, env, id)), h')
      case CallExpression(_, callee, arguments) => EvalCall(callee, arguments, env, h, fuel - 1)
      case _ => (Normal(Null), h)
  }

  function EvalPrefix(operator: string, right: Expression, env: nat, h: HeapState, fuel: nat): (Outcome<Value>, HeapState)
    decreases fuel, 1, 0
  {
    var (r, h') := EvalExpression(right, env, h, fuel);
    if r.Normal? && !IsError(r.value) then (PrefixOutcome(operator, r.value), h') else (r, h')
  }

  function EvalInfix(left: Expression, operator: string, right: Expression, env: nat, h: HeapState, fuel: nat)
    : (Outcome<Value>, HeapState)
    decreases fuel, 2, 0
  {
    var (l, h1) := EvalExpression(left, env, h, fuel);
    if !l.Normal? || IsError(l.value) then (l, h1)
    else EvalRightOperand(l.value, operator, right, env, h1, fuel)
  }

  /** The rest of an infix expression once its left operand is a value. */
  function EvalRightOperand(left: Value, operator: string, right: Expression, env: nat, h: HeapState, fuel: nat)
    : (Outcome<Value>, HeapState)
    decreases fuel, 1, 0
  {
    var (r, h') := EvalExpression(right, env, h, fuel);
    if !r.Normal? || IsError(r.value) then (r, h')
    else (InfixOutcome(operator, left, r.value), h')
  }

  /** `evalIfExpression`. */
  function EvalIf(condition: Expression, consequence: BlockStatement, alternative: Option<BlockStatement>,
                  env: nat, h: HeapState, fuel: nat): (Outcome<Value>, HeapState)
    decreases fuel, 1, 0
  {
    var (c, h1) := EvalExpression(condition, env, h, fuel);
    if !c.Normal? || IsError(c.value) then (c, h1)
    else if Truthy(c.value) then EvalBlock(consequence, env, h1, fuel)
    else if alternative.Some? then EvalBlock(alternative.value, env, h1, fuel)
    else (Normal(Nil), h1)
  }

  /** The call case of `Eval`: callee, then arguments, then `applyFunction`. */
  function EvalCall(callee: Expression, arguments: seq<Expression>, env: nat, h: HeapState, fuel: nat)
    : (Outcome<Value>, HeapState)
    decreases fuel, 2, 0
  {
    var (f, h1) := EvalExpression(callee, env, h, fuel);
    if !f.Normal? || IsError(f.value) then (f, h1)
    else
      var (a, h2) := EvalExpressions(arguments, 0, [], env, h1, fuel);
      if !a.Normal? then (Abrupt(a), h2)
      else if |a.value| == 1 && IsError(a.value[0]) then (Normal(a.value[0]), h2)
      else Apply(f.value, a.value, h2, fuel)
  }

  /**
   * `evalExpressions` from argument `i` on, `values` holding those already
   * evaluated: an error ends it as the one-element list of that error.
   */
  function EvalExpressions(exps: seq<Expression>, i: nat, values: seq<Value>, env: nat, h: HeapState, fuel: nat)
    : (Outcome<seq<Value>>, HeapState)
    decreases fuel, 1, |exps| - i
  {
    if i >= |exps| then (Normal(values), h)
    else
      var (r, h') := EvalExpression(exps[i], env, h, fuel);
      if !r.Normal? then (Abrupt(r), h')
      else if IsError(r.value) then (Normal([r.value]), h')
      else EvalExpressions(exps, i + 1, values + [r.value], env, h', fuel)
  }

  /**
   * `applyFunction`: a Function runs its body in a new environment enclosing
   * the one it captured, with the parameters bound; a builtin is called.
   */
  function Apply(f: Value, args: seq<Value>, h: HeapState, fuel: nat): (Outcome<Value>, HeapState)
    decreases fuel, 1, 0
  {
    match f
    case Function(parameters, body, captured, _) =>
      if |args| < |parameters| then (Panicked(IndexOutOfRange), h)
      else
        var (env, h1) := h.Enclose(captured);
        var (r, h2) := EvalBlock(body, env, BindParameters(parameters, args, 0, env, h1), fuel);
        (if r.Normal? then Normal(Unwrap(r.value)) else r, h2)
    case Builtin(b) =>
      var (id, h1) := h.Allocate();
      (Builtins.Call(b, args, id), h1)
    case Null => (Panicked(NilDereference), h)
    case _ => (Normal(Error("not a function: " + f.Type())), h)
  }

  /** `Eval` of a statement node. A `let` binds in the current environment and yields nil. */
  function EvalStatement(s: Statement, env: nat, h: HeapState, fuel: nat): (Outcome<Value>, HeapState)
    decreases fuel, 0, 0
  {
    if fuel == 0 then (OutOfFuel, h)
    else
      match s
      case ExpressionStatement(_, e) => EvalExpression(e, env, h, fuel - 1)
      case ReturnStatement(_, e) =>
        var (r, h1) := EvalExpression(e, env, h, fuel - 1);
        if !r.Normal? || IsError(r.value) then (r, h1)
        else
          var (id, h2) := h1.Allocate();
          (Normal(ReturnValue(r.value, id)), h2)
      case LetStatement(_, name, e) =>
        var (r, h1) := EvalExpression(e, env, h, fuel - 1);
        if !r.Normal? || IsError(r.value) then (r, h1)
        else (Normal(Null), h1.Set(env, name.value, r.value))
      case NilLetStatement => (Panicked(NilDereference), h)
  }

  /** `Eval` of a block node. */
  function EvalBlock(b: BlockStatement, env: nat, h: HeapState, fuel: nat): (Outcome<Value>, HeapState)
    decreases fuel, 0, 0
  {
    if fuel == 0 then (OutOfFuel, h)
    else BlockLoop(b.statements, 0, Null, env, h, fuel - 1)
  }

  /**
   * `evalBlockStatement`'s loop from statement `i` on, `result` being the last
   * value: a return value or an error ends the block still wrapped.
   */
  function BlockLoop(statements: seq<Statement>, i: nat, result: Value, env: nat, h: HeapState, fuel: nat)
    : (Outcome<Value>, HeapState)
    decreases fuel, 1, |statements| - i
  {
    if i >= |statements| then (Normal(result), h)
    else
      var (r, h') := EvalStatement(statements[i], env, h, fuel);
      if !r.Normal? || r.value.ReturnValue? || r.value.Error? then (r, h')
      else BlockLoop(statements, i + 1, r.value, env, h', fuel)
  }

  /** `Eval` of a program node. */
  function EvalProgram(p: Program, env: nat, h: HeapState, fuel: nat): (Outcome<Value>, HeapState)
  {
    if fuel == 0 then (OutOfFuel, h)
    else ProgramLoop(p.statements, 0, Null, env, h, fuel - 1)
  }

  /**
   * `evalProgram`'s loop from statement `i` on: a return value ends the program
   * with the value it wraps, an error ends it as it is.
   */
  function ProgramLoop(statements: seq<Statement>, i: nat, result: Value, env: nat, h: HeapState, fuel: nat)
    : (Outcome<Value>, HeapState)
    decreases |statements| - i
  {
    if i >= |statements| then (Normal(result), h)
    else
      var (r, h') := EvalStatement(statements[i], env, h, fuel);
      if !r.Normal? then (r, h')
      else if r.value.ReturnValue? then (Normal(r.value.value), h')
      else if r.value.Error? then (r, h')
      else ProgramLoop(statements, i + 1, r.value, env, h', fuel)
  }

  /** A program run the way the tests run one: in a new top-level environment. */
  function Run(p: Program, fuel: nat): (Outcome<Value>, HeapState)
  {
    EvalProgram(p, 0, Initial(), fuel)
  }
}
