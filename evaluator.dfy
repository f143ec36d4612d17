/**
 * `Eval` (evaluator/evaluator.go) as methods that update the environments in
 * place: a `let` and each call's parameter binding write into the `Heap`, and
 * so do allocations of functions, return values and builtin results. Each
 * method is proved to compute exactly what the EvaluatorSpec function of the
 * same name describes, outcome and resulting heap alike; the loops of
 * `evalProgram`, `evalBlockStatement`, `evalExpressions`, `extendFunctionEnv`
 * and the string repetition keep that correspondence as their invariant.
 */
module Evaluator {
  import opened Wrappers
  import opened GoStrings
  import opened Ast
  import opened Objects
  import opened Environments
  import Builtins
  import S = EvaluatorSpec

  /** The loop of `evalStringInfixExpression` that writes `str` `edge` times. */
  method RepeatString(str: Bytes, edge: Int64) returns (out: Bytes)
    ensures out == S.Repeat(str, edge)
  {
    out := "";
    var index: int := 0;
    while index < edge
      invariant 0 <= index <= if edge > 0 then edge else 0
      invariant out == S.Repeat(str, index)
    {
      out := out + str;
      index := index + 1;
    }
  }

  method StringInfix(operator: string, left: Value, right: Value) returns (r: Outcome<Value>)
    requires S.StringOperands(left, right)
    ensures r == S.StringInfix(operator, left, right)
  {
    if operator == "+" {
      if left.String? && right.String? {
        r := Normal(String(left.strValue + right.strValue));
      } else {
        r := Panicked(FailedTypeAssertion);
      }
    } else if operator == "*" {
      var edge: Int64, str: Bytes;
      if left.Zero? || left.Integer? {
        edge, str := left.IntValue(), right.strValue;
      } else if right.Zero? || right.Integer? {
        edge, str := right.IntValue(), left.strValue;
      } else {
        return Panicked(FailedTypeAssertion);
      }
      var out := RepeatString(str, edge);
      r := Normal(String(out));
    } else {
      r := Normal(S.UnknownOperator(left, operator, right));
    }
  }

  /** `evalInfixExpression`, whose string case runs the repetition loop. */
  method Infix(operator: string, left: Value, right: Value) returns (r: Outcome<Value>)
    ensures r == S.InfixOutcome(operator, left, right)
  {
    if !left.Null? && !right.Null? && !(left.Type() == "INTEGER" && right.Type() == "INTEGER")
       && S.StringOperands(left, right) {
      r := StringInfix(operator, left, right);
    } else {
      r := S.InfixOutcome(operator, left, right);
    }
  }

  method EvalExpression(e: Expression, env: nat, h: Heap, fuel: nat) returns (r: Outcome<Value>)
    modifies h
    ensures (r, h.State()) == S.EvalExpression(e, env, old(h.State()), fuel)
    decreases fuel, 0, 0
  {
    if fuel == 0 {
      return OutOfFuel;
    }
    match e
    case IdentifierExpression(id) =>
      r := Normal(S.EvalIdentifier(id.value, env, h.State()));
    case IntegerLiteral(_, v) =>
      r := Normal(if v == 0 then Zero else Integer(v));
    case BooleanLiteral(_, b) =>
      r := Normal(NativeBool(b));
    case StringLiteral(_, s) =>
      r := Normal(String(s));
    case PrefixExpression(_, operator, right) =>
      r := EvalPrefix(operator, right, env, h, fuel - 1);
    case InfixExpression(_, left, operator, right) =>
      r := EvalInfix(left, operator, right, env, h, fuel - 1);
    case IfExpression(_, condition, consequence, alternative) =>
      r := EvalIf(condition, consequence, alternative, env, h, fuel - 1);
    case FunctionLiteral(_, parameters, body) =>
      var id := h.Allocate();
      r := Normal(Function(parameters, body, env, id));
    case CallExpression(_, callee, arguments) =>
      r := EvalCall(callee, arguments, env, h, fuel - 1);
    case _ =>
      r := Normal(Null);
  }

  method EvalPrefix(operator: string, right: Expression, env: nat, h: Heap, fuel: nat) returns (r: Outcome<Value>)
    modifies h
    ensures (r, h.State()) == S.EvalPrefix(operator, right, env, old(h.State()), fuel)
    decreases fuel, 1, 0
  {
    r := EvalExpression(right, env, h, fuel);
    if r.Normal? && !S.IsError(r.value) {
      r := S.PrefixOutcome(operator, r.value);
    }
  }

  method EvalInfix(left: Expression, operator: string, right: Expression, env: nat, h: Heap, fuel: nat)
    returns (r: Outcome<Value>)
    modifies h
    ensures (r, h.State()) == S.EvalInfix(left, operator, right, env, old(h.State()), fuel)
    decreases fuel, 2, 0
  {
    r := EvalExpression(left, env, h, fuel);
    if r.Normal? && !S.IsError(r.value) {
      r := EvalRightOperand(r.value, operator, right, env, h, fuel);
    }
  }

  method EvalRightOperand(left: Value, operator: string, right: Expression, env: nat, h: Heap, fuel: nat)
    returns (r: Outcome<Value>)
    modifies h
    ensures (r, h.State()) == S.EvalRightOperand(left, operator, right, env, old(h.State()), fuel)
    decreases fuel, 1, 0
  {
    r := EvalExpression(right, env, h, fuel);
    if r.Normal? && !S.IsError(r.value) {
      r := Infix(operator, left, r.value);
    }
  }

  method EvalIf(condition: Expression, consequence: BlockStatement, alternative: Option<BlockStatement>,
                env: nat, h: Heap, fuel: nat) returns (r: Outcome<Value>)
    modifies h
    ensures (r, h.State()) == S.EvalIf(condition, consequence, alternative, env, old(h.State()), fuel)
    decreases fuel, 1, 0
  {
    var c := EvalExpression(condition, env, h, fuel);
    if !c.Normal? || S.IsError(c.value) {
      r := c;
    } else if S.Truthy(c.value) {
      r := EvalBlock(consequence, env, h, fuel);
    } else if alternative.Some? {
      r := EvalBlock(alternative.value, env, h, fuel);
    } else {
      r := Normal(Nil);
    }
  }

  method EvalCall(callee: Expression, arguments: seq<Expression>, env: nat, h: Heap, fuel: nat)
    returns (r: Outcome<Value>)
    modifies h
    ensures (r, h.State()) == S.EvalCall(callee, arguments, env, old(h.State()), fuel)
    decreases fuel, 2, 0
  {
    var f := EvalExpression(callee, env, h, fuel);
    if !f.Normal? || S.IsError(f.value) {
      return f;
    }
    var args := EvalExpressions(arguments, env, h, fuel);
    if !args.Normal? {
      return S.Abrupt(args);
    }
    if |args.value| == 1 && S.IsError(args.value[0]) {
      return Normal(args.value[0]);
    }
    r := Apply(f.value, args.value, h, fuel);
  }

  /** `evalExpressions`: evaluates left to right and stops at the first error. */
  method EvalExpressions(exps: seq<Expression>, env: nat, h: Heap, fuel: nat) returns (r: Outcome<seq<Value>>)
    modifies h
    ensures (r, h.State()) == S.EvalExpressions(exps, 0, [], env, old(h.State()), fuel)
    decreases fuel, 1, 0
  {
    var values: seq<Value> := [];
    var i := 0;
    while i < |exps|
      invariant i <= |exps|
      invariant S.EvalExpressions(exps, i, values, env, h.State(), fuel)
                == S.EvalExpressions(exps, 0, [], env, old(h.State()), fuel)
    {
      var v := EvalExpression(exps[i], env, h, fuel);
      if !v.Normal? {
        return S.Abrupt(v);
      }
      if S.IsError(v.value) {
        return Normal([v.value]);
      }
      values := values + [v.value];
      i := i + 1;
    }
    r := Normal(values);
  }

  /** `extendFunctionEnv`: a new environment enclosing `captured`, the parameters bound in order. */
  method ExtendFunctionEnv(parameters: seq<Identifier>, args: seq<Value>, captured: nat, h: Heap)
    returns (env: nat)
    requires |parameters| <= |args|
    modifies h
    ensures var (e, h1) := old(h.State()).Enclose(captured);
            env == e && h.State() == S.BindParameters(parameters, args, 0, e, h1)
  {
    env := h.NewEnclosedEnvironment(captured);
    ghost var h1 := h.State();
    var i := 0;
    while i < |parameters|
      invariant i <= |parameters|
      invariant S.BindParameters(parameters, args, i, env, h.State()) == S.BindParameters(parameters, args, 0, env, h1)
    {
      h.Set(env, parameters[i].value, args[i]);
      i := i + 1;
    }
  }

  /** `applyFunction`. */
  method Apply(f: Value, args: seq<Value>, h: Heap, fuel: nat) returns (r: Outcome<Value>)
    modifies h
    ensures (r, h.State()) == S.Apply(f, args, old(h.State()), fuel)
    decreases fuel, 1, 0
  {
    match f
    case Function(parameters, body, captured, _) =>
      if |args| < |parameters| {
        return Panicked(IndexOutOfRange);
      }
      var env := ExtendFunctionEnv(parameters, args, captured, h);
      r := EvalBlock(body, env, h, fuel);
      if r.Normal? {
        r := Normal(S.Unwrap(r.value));
      }
    case Builtin(b) =>
      var id := h.Allocate();
      r := Builtins.Call(b, args, id);
    case Null =>
      r := Panicked(NilDereference);
    case _ =>
      r := Normal(Error("not a function: " + f.Type()));
  }

  method EvalStatement(s: Statement, env: nat, h: Heap, fuel: nat) returns (r: Outcome<Value>)
    modifies h
    ensures (r, h.State()) == S.EvalStatement(s, env, old(h.State()), fuel)
    decreases fuel, 0, 0
  {
    if fuel == 0 {
      return OutOfFuel;
    }
    match s
    case ExpressionStatement(_, e) =>
      r := EvalExpression(e, env, h, fuel - 1);
    case ReturnStatement(_, e) =>
      r := EvalExpression(e, env, h, fuel - 1);
      if r.Normal? && !S.IsError(r.value) {
        var id := h.Allocate();
        r := Normal(ReturnValue(r.value, id));
      }
    case LetStatement(_, name, e) =>
      r := EvalExpression(e, env, h, fuel - 1);
      if r.Normal? && !S.IsError(r.value) {
        h.Set(env, name.value, r.value);
        r := Normal(Null);
      }
    case NilLetStatement =>
      r := Panicked(NilDereference);
  }

  /** `evalBlockStatement`. */
  method EvalBlock(b: BlockStatement, env: nat, h: Heap, fuel: nat) returns (r: Outcome<Value>)
    modifies h
    ensures (r, h.State()) == S.EvalBlock(b, env, old(h.State()), fuel)
    decreases fuel, 0, 0
  {
    if fuel == 0 {
      return OutOfFuel;
    }
    var result := Null;
    var i := 0;
    while i < |b.statements|
      invariant i <= |b.statements|
      invariant S.BlockLoop(b.statements, i, result, env, h.State(), fuel - 1)
                == S.BlockLoop(b.statements, 0, Null, env, old(h.State()), fuel - 1)
    {
      r := EvalStatement(b.statements[i], env, h, fuel - 1);
      if !r.Normal? || r.value.ReturnValue? || r.value.Error? {
        return;
      }
      result := r.value;
      i := i + 1;
    }
    r := Normal(result);
  }

  /** `evalProgram`. */
  method EvalProgram(p: Program, env: nat, h: Heap, fuel: nat) returns (r: Outcome<Value>)
    modifies h
    ensures (r, h.State()) == S.EvalProgram(p, env, old(h.State()), fuel)
  {
    if fuel == 0 {
      return OutOfFuel;
    }
    var result := Null;
    var i := 0;
    while i < |p.statements|
      invariant i <= |p.statements|
      invariant S.ProgramLoop(p.statements, i, result, env, h.State(), fuel - 1)
                == S.ProgramLoop(p.statements, 0, Null, env, old(h.State()), fuel - 1)
    {
      r := EvalStatement(p.statements[i], env, h, fuel - 1);
      if !r.Normal? || r.value.Error? {
        return;
      }
      if r.value.ReturnValue? {
        return Normal(r.value.value);
      }
      result := r.value;
      i := i + 1;
    }
    r := Normal(result);
  }

  /** A program evaluated in a new top-level environment, as the tests and the REPL do. */
  method Run(p: Program, fuel: nat) returns (r: Outcome<Value>)
    ensures r == S.Run(p, fuel).0
  {
    var h := new Heap();
    r := EvalProgram(p, 0, h, fuel);
  }
}
