/**
 * The older evaluator (src/evaluator/evaluator.go): no environment, no
 * builtins, no error objects. It evaluates literals, prefix and infix
 * operators, `if`, blocks, `return` and programs; every other node gives Go's
 * nil, and every operator it cannot apply gives NIL. Only asking nil for its
 * type panics.
 *
 * Its truthiness and `!` are the current evaluator's `Truthy` and `Bang`,
 * which compare with the same shared instances in the same way.
 *
 * A return value is a fresh object each time, and the two operands of an
 * infix expression are evaluated separately, so two return values are never
 * the same object: identity here can only hold between the shared NIL, TRUE
 * and FALSE, and the `id` of a ReturnValue plays no part (it is always 0).
 */
module LegacyEvaluator {
  import opened Wrappers
  import opened GoStrings
  import opened Ast
  import opened Objects
  import EvaluatorSpec

  /** The objects this evaluator can produce. */
  predicate LegacyObject(v: Value)
  {
    match v
    case Null => true
    case Nil => true
    case Boolean(_) => true
    case Zero => true
    case Integer(_) => true
    case ReturnValue(inner, id) => id == 0 && LegacyObject(inner)
    case _ => false
  }

  /** `left == right` on interface values, for operands that are not both integers. */
  function LegacyIdentical(a: Value, b: Value): (r: bool)
    ensures r ==> a == b
  {
    (a.Nil? || a.Boolean?) && a == b
  }

  /** `evalPrefixExpression`: `!`, `-` on an integer, and NIL for everything else. */
  function Prefix(operator: string, right: Value): Outcome<Value>
  {
    if operator == "!" then Normal(EvaluatorSpec.Bang(right))
    else if operator == "-" then
      if right.Null? then Panicked(NilDereference)
      else if right.Type() != "INTEGER" then Normal(Nil)
      else Normal(Integer(Wrap64(-(right.IntValue() as int))))
    else Normal(Nil)
  }

  /** `evalIntegerInfixExpression`: int64 arithmetic; dividing by any zero, or an unknown operator, gives NIL. */
  function IntegerInfix(operator: string, left: Value, right: Value): Value
    requires (left.Zero? || left.Integer?) && (right.Zero? || right.Integer?)
  {
    var l: int, r: int := left.IntValue(), right.IntValue();
    match operator
    case "+" => Integer(Wrap64(l + r))
    case "-" => Integer(Wrap64(l - r))
    case "*" => Integer(Wrap64(l * r))
    case "/" => if r == 0 then Nil else Integer(Wrap64(TruncDiv(l, r)))
    case ">" => NativeBool(l > r)
    case "<" => NativeBool(l < r)
    case "==" => NativeBool(l == r)
    case "!=" => NativeBool(l != r)
    case _ => Nil
  }

  /**
   * `evalInfixExpression`: two integers use the integer rules, otherwise `==`
   * and `!=` compare identity and anything else is NIL. The left operand's
   * type is always asked for, the right one's only when the left is an integer.
   */
  function Infix(operator: string, left: Value, right: Value): Outcome<Value>
  {
    if left.Null? || (left.Type() == "INTEGER" && right.Null?) then Panicked(NilDereference)
    else if left.Type() == "INTEGER" && right.Type() == "INTEGER" then Normal(IntegerInfix(operator, left, right))
    else if operator == "==" then Normal(NativeBool(LegacyIdentical(left, right)))
    else if operator == "!=" then Normal(NativeBool(!LegacyIdentical(left, right)))
    else Normal(Nil)
  }

  /** `Eval` of an expression node. */
  function Eval(e: Expression): (r: Outcome<Value>)
    ensures !r.OutOfFuel? && (r.Normal? ==> LegacyObject(r.value))
    decreases e, 0
  {
    match e
    case IntegerLiteral(_, v) => Normal(if v == 0 then Zero else Integer(v))
    case BooleanLiteral(_, b) => Normal(NativeBool(b))
    case PrefixExpression(_, operator, right) =>
      var r := Eval(right);
      if !r.Normal? then r else Prefix(operator, r.value)
    case InfixExpression(_, left, operator, right) =>
      var l := Eval(left);
      if !l.Normal? then l
      else
        var r := Eval(right);
        if !r.Normal? then r else Infix(operator, l.value, r.value)
    case IfExpression(_, condition, consequence, alternative) =>
      var c := Eval(condition);
      if !c.Normal? then c
      else if EvaluatorSpec.Truthy(c.value) then EvalBlock(consequence)
      else if alternative.Some? then EvalBlock(alternative.value)
      else Normal(Nil)
    case _ => Normal(Null)
  }

  /** `Eval` of a statement node; a `let` has no case and gives nil. */
  function EvalStatement(s: Statement): (r: Outcome<Value>)
    ensures !r.OutOfFuel? && (r.Normal? ==> LegacyObject(r.value))
    decreases s, 0
  {
    match s
    case ExpressionStatement(_, e) => Eval(e)
    case ReturnStatement(_, e) =>
      var r := Eval(e);
      if !r.Normal? then r else Normal(ReturnValue(r.value, 0))
    case _ => Normal(Null)
  }

  /** `evalBlockStatement`. */
  function EvalBlock(b: BlockStatement): (r: Outcome<Value>)
    ensures !r.OutOfFuel? && (r.Normal? ==> LegacyObject(r.value))
    decreases b, 0
  {
    BlockLoop(b.statements, 0, Null)
  }

  /** The block's loop from statement `i` on: a return value ends it, still wrapped. */
  function BlockLoop(statements: seq<Statement>, i: nat, result: Value): (r: Outcome<Value>)
    requires LegacyObject(result)
    ensures !r.OutOfFuel? && (r.Normal? ==> LegacyObject(r.value))
    decreases statements, |statements| - i
  {
    if i >= |statements| then Normal(result)
    else
      var r := EvalStatement(statements[i]);
      if !r.Normal? || r.value.ReturnValue? then r
      else BlockLoop(statements, i + 1, r.value)
  }

  /** `evalProgram`'s loop from statement `i` on: a return value ends it with the value it wraps. */
  function ProgramLoop(statements: seq<Statement>, i: nat, result: Value): (r: Outcome<Value>)
    requires LegacyObject(result)
    ensures !r.OutOfFuel? && (r.Normal? ==> LegacyObject(r.value))
    decreases |statements| - i
  {
    if i >= |statements| then Normal(result)
    else
      var r := EvalStatement(statements[i]);
      if !r.Normal? then r
      else if r.value.ReturnValue? then Normal(r.value.value)
      else ProgramLoop(statements, i + 1, r.value)
  }

  /** `Eval` of a program node. */
  function EvalProgram(p: Program): (r: Outcome<Value>)
    ensures !r.OutOfFuel? && (r.Normal? ==> LegacyObject(r.value))
  {
    ProgramLoop(p.statements, 0, Null)
  }

  /** Literals: only the literal 0 is the shared ZERO, and booleans are the shared TRUE and FALSE. */
  lemma Literals(t: Token, v: Int64, b: bool)
    ensures v == 0 ==> Eval(IntegerLiteral(t, v)) == Normal(Zero)
    ensures v != 0 ==> Eval(IntegerLiteral(t, v)) == Normal(Integer(v))
    ensures Eval(BooleanLiteral(t, b)) == Normal(Boolean(b))
  {
  }

  /** Nodes without a case (identifiers, strings, functions, calls, `let`, ...) evaluate to nil. */
  lemma OtherNodesAreNil(e: Expression, s: Statement)
    requires e.IdentifierExpression? || e.StringLiteral? || e.ArrayLiteral? || e.IndexExpression?
             || e.FunctionLiteral? || e.CallExpression? || e.NilExpression?
    requires s.LetStatement? || s.NilLetStatement?
    ensures Eval(e) == Normal(Null) && EvalStatement(s) == Normal(Null)
  {
  }

  /**
   * Prefix operators: any operator but `!` and `-` is NIL, `-` of anything
   * but an integer is NIL, and on integers `!` and `-` agree with the
   * current evaluator.
   */
  lemma PrefixRules(operator: string, v: Value, n: Value)
    requires n.Zero? || n.Integer?
    ensures operator != "!" && operator != "-" ==> Prefix(operator, v) == Normal(Nil)
    ensures !v.Null? && v.Type() != "INTEGER" ==> Prefix("-", v) == Normal(Nil)
    ensures Prefix("-", n) == EvaluatorSpec.PrefixOutcome("-", n)
    ensures Prefix("!", v) == EvaluatorSpec.PrefixOutcome("!", v)
  {
  }

  /**
   * Infix operators on anything but two integers: `==` and `!=` compare
   * identity, every other operator is NIL; two return values are never
   * identical, even wrapping equal values.
   */
  lemma InfixRules(operator: string, l: Value, r: Value, a: Value, b: Value)
    requires !l.Null? && !r.Null? && !(l.Type() == "INTEGER" && r.Type() == "INTEGER")
    ensures Infix("==", l, r) == Normal(Boolean(LegacyIdentical(l, r)))
    ensures Infix("!=", l, r) == Normal(Boolean(!LegacyIdentical(l, r)))
    ensures operator != "==" && operator != "!=" ==> Infix(operator, l, r) == Normal(Nil)
    ensures Infix("==", ReturnValue(a, 0), ReturnValue(b, 0)) == Normal(Boolean(false))
  {
  }

  /**
   * On two integers both evaluators compute the same int64 results, except
   * that here any zero divisor gives NIL (the current evaluator reports the
   * literal ZERO and panics on a computed zero) and an unknown operator gives
   * NIL (the current one reports it).
   */
  lemma IntegerInfixAgreement(operator: string, l: Value, r: Value)
    requires (l.Zero? || l.Integer?) && (r.Zero? || r.Integer?)
    ensures operator in {"+", "-", "*", "<", ">", "==", "!="} ==>
              Normal(IntegerInfix(operator, l, r)) == EvaluatorSpec.IntegerInfix(operator, l, r)
    ensures operator == "/" && r.IntValue() != 0 ==>
              Normal(IntegerInfix(operator, l, r)) == EvaluatorSpec.IntegerInfix(operator, l, r)
    ensures operator == "/" && r.IntValue() == 0 ==>
              IntegerInfix(operator, l, r) == Nil
              && EvaluatorSpec.IntegerInfix(operator, l, r)
                 == if r.Zero? then Normal(Error("division by zero: it is impossible to divide by zero"))
                    else Panicked(IntegerDivideByZero)
    ensures !(operator in {"+", "-", "*", "/", "<", ">", "==", "!="}) ==>
              IntegerInfix(operator, l, r) == Nil && EvaluatorSpec.IntegerInfix(operator, l, r).value.Error?
  {
  }

  /** The block loop over `prefix + s` from `|prefix| + j` only sees `s`. */
  lemma {:induction false} BlockLoopShift(prefix: seq<Statement>, s: seq<Statement>, j: nat, result: Value)
    requires j <= |s| && LegacyObject(result)
    ensures BlockLoop(prefix + s, |prefix| + j, result) == BlockLoop(s, j, result)
    decreases |s| - j
  {
    if j < |s| {
      assert (prefix + s)[|prefix| + j] == s[j];
      var r := EvalStatement(s[j]);
      if r.Normal? && !r.value.ReturnValue? {
        BlockLoopShift(prefix, s, j + 1, r.value);
      }
    }
  }

  /**
   * Running `first + rest` is running `first` and, unless it ended at a
   * return value or a panic, running `rest` from its last value.
   */
  lemma {:induction false} BlockSequence(first: seq<Statement>, rest: seq<Statement>, i: nat, result: Value)
    requires i <= |first| && LegacyObject(result) && !result.ReturnValue?
    ensures var r := BlockLoop(first, i, result);
            BlockLoop(first + rest, i, result)
              == if r.Normal? && !r.value.ReturnValue? then BlockLoop(rest, 0, r.value) else r
    decreases |first| - i
  {
    if i == |first| {
      BlockLoopShift(first, rest, 0, result);
    } else {
      assert (first + rest)[i] == first[i];
      var r := EvalStatement(first[i]);
      if r.Normal? && !r.value.ReturnValue? {
        BlockSequence(first, rest, i + 1, r.value);
      }
    }
  }

  /** The program loop is the block loop with the final return value unwrapped. */
  lemma {:induction false} ProgramLoopIsBlockLoop(statements: seq<Statement>, i: nat, result: Value)
    requires LegacyObject(result) && !result.ReturnValue?
    ensures var r := BlockLoop(statements, i, result);
            ProgramLoop(statements, i, result) == if r.Normal? then Normal(EvaluatorSpec.Unwrap(r.value)) else r
    decreases |statements| - i
  {
    if i < |statements| {
      var r := EvalStatement(statements[i]);
      if r.Normal? && !r.value.ReturnValue? {
        ProgramLoopIsBlockLoop(statements, i + 1, r.value);
      }
    }
  }

  /**
   * A program stops at its first return value and yields the value it wraps;
   * the statements after it are never evaluated.
   */
  lemma ProgramStopsAtReturn(before: seq<Statement>, s: Statement, after: seq<Statement>)
    requires var b := BlockLoop(before, 0, Null); b.Normal? && !b.value.ReturnValue?
    requires EvalStatement(s).Normal? && EvalStatement(s).value.ReturnValue?
    ensures EvalProgram(Program(before + [s] + after)) == Normal(EvalStatement(s).value.value)
  {
    ProgramLoopIsBlockLoop(before + [s] + after, 0, Null);
    BlockSequence(before, [s] + after, 0, Null);
    assert before + [s] + after == before + ([s] + after);
  }

  /** `if (0) { 10 }` is NIL (ZERO is falsy) while `if (1 - 1) { 10 }` is 10 (a computed zero is truthy). */
  lemma IfExamples(t: Token)
    ensures var ten := BlockStatement(t, [ExpressionStatement(t, IntegerLiteral(t, 10))]);
            Eval(IfExpression(t, IntegerLiteral(t, 0), ten, None)) == Normal(Nil)
    ensures var ten := BlockStatement(t, [ExpressionStatement(t, IntegerLiteral(t, 10))]);
            var zero := InfixExpression(t, IntegerLiteral(t, 1), "-", IntegerLiteral(t, 1));
            Eval(IfExpression(t, zero, ten, None)) == Normal(Integer(10))
  {
    var ten := ExpressionStatement(t, IntegerLiteral(t, 10));
    assert EvalStatement(ten) == Normal(Integer(10));
    assert BlockLoop([ten], 1, Integer(10)) == Normal(Integer(10));
    assert BlockLoop([ten], 0, Null) == Normal(Integer(10));
    assert EvalBlock(BlockStatement(t, [ten])) == Normal(Integer(10));
    assert Eval(IntegerLiteral(t, 1)) == Normal(Integer(1));
    assert Eval(InfixExpression(t, IntegerLiteral(t, 1), "-", IntegerLiteral(t, 1))) == Normal(Integer(0));
  }
}
