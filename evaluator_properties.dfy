/**
 * What the evaluator promises beyond single operators: how blocks and
 * programs sequence their statements and where they stop, how errors pass
 * through every construct unchanged, how identifiers resolve, and what
 * environment a called function's body runs in.
 */
module EvaluatorProperties {
  import opened Wrappers
  import opened GoStrings
  import opened Ast
  import opened Objects
  import opened Environments
  import Builtins
  import opened EvaluatorSpec

  /** Whether a block's loop ended by running out of statements rather than by stopping early. */
  predicate RanToEnd(r: Outcome<Value>)
  {
    r.Normal? && !r.value.ReturnValue? && !r.value.Error?
  }

  /** A block's loop over `prefix + s` from position `|prefix| + j` only sees `s`. */
  lemma {:induction false} BlockLoopShift(prefix: seq<Statement>, s: seq<Statement>, j: nat, result: Value,
                                          env: nat, h: HeapState, fuel: nat)
    requires j <= |s|
    ensures BlockLoop(prefix + s, |prefix| + j, result, env, h, fuel) == BlockLoop(s, j, result, env, h, fuel)
    decreases |s| - j
  {
    if j < |s| {
      assert (prefix + s)[|prefix| + j] == s[j];
      var (r, h') := EvalStatement(s[j], env, h, fuel);
      if r.Normal? && !r.value.ReturnValue? && !r.value.Error? {
        BlockLoopShift(prefix, s, j + 1, r.value, env, h', fuel);
      }
    }
  }

  /**
   * Running `first + rest` is running `first`, then, only if it ran to its
   * end, running `rest` from the last value and the heap `first` left: a
   * return value or an error in `first` ends the block, and `rest` is never
   * evaluated.
   */
  lemma {:induction false} BlockSequence(first: seq<Statement>, rest: seq<Statement>, i: nat, result: Value,
                                         env: nat, h: HeapState, fuel: nat)
    requires i <= |first| && !result.ReturnValue? && !result.Error?
    ensures var (r, h1) := BlockLoop(first, i, result, env, h, fuel);
            BlockLoop(first + rest, i, result, env, h, fuel)
              == if RanToEnd(r) then BlockLoop(rest, 0, r.value, env, h1, fuel) else (r, h1)
    decreases |first| - i
  {
    if i == |first| {
      BlockLoopShift(first, rest, 0, result, env, h, fuel);
    } else {
      assert (first + rest)[i] == first[i];
      var (r, h') := EvalStatement(first[i], env, h, fuel);
      if r.Normal? && !r.value.ReturnValue? && !r.value.Error? {
        BlockSequence(first, rest, i + 1, r.value, env, h', fuel);
      }
    }
  }

  /**
   * A program's loop is a block's loop followed by unwrapping: both stop at the
   * first return value or error, but the program hands back the returned
   * value itself where the block keeps it wrapped.
   */
  lemma {:induction false} ProgramLoopIsBlockLoop(statements: seq<Statement>, i: nat, result: Value,
                                                  env: nat, h: HeapState, fuel: nat)
    requires !result.ReturnValue?
    ensures var (r, h1) := BlockLoop(statements, i, result, env, h, fuel);
            ProgramLoop(statements, i, result, env, h, fuel)
              == (if r.Normal? then Normal(Unwrap(r.value)) else r, h1)
    decreases |statements| - i
  {
    if i < |statements| {
      var (r, h') := EvalStatement(statements[i], env, h, fuel);
      if r.Normal? && !r.value.ReturnValue? && !r.value.Error? {
        ProgramLoopIsBlockLoop(statements, i + 1, r.value, env, h', fuel);
      }
    }
  }

  /** `evalProgram` is `evalBlockStatement` on the same statements, with the result unwrapped. */
  lemma ProgramIsBlock(p: Program, token: Token, env: nat, h: HeapState, fuel: nat)
    ensures var (r, h1) := EvalBlock(BlockStatement(token, p.statements), env, h, fuel);
            EvalProgram(p, env, h, fuel) == (if r.Normal? then Normal(Unwrap(r.value)) else r, h1)
  {
    if fuel > 0 {
      ProgramLoopIsBlockLoop(p.statements, 0, Null, env, h, fuel - 1);
    }
  }

  /**
   * A program whose statements before `s` run to their end and whose `s`
   * gives a return value or an error stops there, whatever follows: it yields
   * the value a return value wraps, or the error as it is.
   */
  lemma ProgramStopsAtReturn(before: seq<Statement>, s: Statement, after: seq<Statement>,
                             env: nat, h: HeapState, fuel: nat)
    requires fuel > 0
    requires RanToEnd(BlockLoop(before, 0, Null, env, h, fuel - 1).0)
    requires var h1 := BlockLoop(before, 0, Null, env, h, fuel - 1).1;
             var r := EvalStatement(s, env, h1, fuel - 1).0;
             r.Normal? && (r.value.ReturnValue? || r.value.Error?)
    ensures var h1 := BlockLoop(before, 0, Null, env, h, fuel - 1).1;
            var (r, h2) := EvalStatement(s, env, h1, fuel - 1);
            EvalProgram(Program(before + [s] + after), env, h, fuel)
              == (Normal(if r.value.ReturnValue? then r.value.value else r.value), h2)
  {
    var (b, h1) := BlockLoop(before, 0, Null, env, h, fuel - 1);
    var (r, h2) := EvalStatement(s, env, h1, fuel - 1);
    ProgramLoopIsBlockLoop(before + [s] + after, 0, Null, env, h, fuel - 1);
    BlockSequence(before, [s] + after, 0, Null, env, h, fuel - 1);
    assert before + [s] + after == before + ([s] + after);
  }

  /**
   * A block stops at the same place but hands back what `s` gave unchanged: a
   * return value stays wrapped, so an enclosing block or program stops too.
   */
  lemma BlockStopsAtReturn(token: Token, before: seq<Statement>, s: Statement, after: seq<Statement>,
                           env: nat, h: HeapState, fuel: nat)
    requires fuel > 0
    requires RanToEnd(BlockLoop(before, 0, Null, env, h, fuel - 1).0)
    requires var h1 := BlockLoop(before, 0, Null, env, h, fuel - 1).1;
             var r := EvalStatement(s, env, h1, fuel - 1).0;
             r.Normal? && (r.value.ReturnValue? || r.value.Error?)
    ensures var h1 := BlockLoop(before, 0, Null, env, h, fuel - 1).1;
            EvalBlock(BlockStatement(token, before + [s] + after), env, h, fuel)
              == EvalStatement(s, env, h1, fuel - 1)
  {
    BlockSequence(before, [s] + after, 0, Null, env, h, fuel - 1);
    assert before + [s] + after == before + ([s] + after);
  }

  /**
   * An Error from an operand, a condition, a callee, or the value of a
   * `return` or `let` is the construct's result, with the heap as the
   * erroneous evaluation left it: nothing after it is evaluated.
   */
  lemma ErrorsPropagate(e: Expression, other: Expression, operator: string, consequence: BlockStatement,
                        alternative: Option<BlockStatement>, arguments: seq<Expression>, token: Token,
                        name: Identifier, env: nat, h: HeapState, fuel: nat)
    requires var r := EvalExpression(e, env, h, fuel).0; r.Normal? && IsError(r.value)
    ensures var o := EvalExpression(e, env, h, fuel);
            && EvalPrefix(operator, e, env, h, fuel) == o
            && EvalInfix(e, operator, other, env, h, fuel) == o
            && EvalIf(e, consequence, alternative, env, h, fuel) == o
            && EvalCall(e, arguments, env, h, fuel) == o
            && EvalStatement(ReturnStatement(token, e), env, h, fuel + 1) == o
            && EvalStatement(LetStatement(token, name, e), env, h, fuel + 1) == o
  {
  }

  /** The same for a right operand once the left one is a value. */
  lemma RightOperandErrorPropagates(left: Value, operator: string, right: Expression, env: nat, h: HeapState, fuel: nat)
    requires var r := EvalExpression(right, env, h, fuel).0; r.Normal? && IsError(r.value)
    ensures EvalRightOperand(left, operator, right, env, h, fuel) == EvalExpression(right, env, h, fuel)
  {
  }

  /**
   * `evalExpressions` either ends with the one-element list of an error, or
   * yields the values so far followed by one non-error value per remaining
   * expression, in order.
   */
  lemma {:induction false} ArgumentsShape(exps: seq<Expression>, i: nat, values: seq<Value>,
                                          env: nat, h: HeapState, fuel: nat)
    requires i <= |exps|
    ensures var a := EvalExpressions(exps, i, values, env, h, fuel).0;
            a.Normal? ==>
              (|a.value| == 1 && IsError(a.value[0]))
              || (|a.value| == |values| + |exps| - i && a.value[..|values|] == values
                  && forall k | |values| <= k < |a.value| :: !IsError(a.value[k]))
    decreases |exps| - i
  {
    if i < |exps| {
      var (r, h') := EvalExpression(exps[i], env, h, fuel);
      if r.Normal? && !IsError(r.value) {
        var values' := values + [r.value];
        ArgumentsShape(exps, i + 1, values', env, h', fuel);
        var a := EvalExpressions(exps, i + 1, values', env, h', fuel).0;
        if a.Normal? && |a.value| == |values'| + |exps| - (i + 1) && a.value[..|values'|] == values' {
          assert a.value[..|values|] == values'[..|values|];
        }
      }
    }
  }

  /**
   * An argument that evaluates to an error makes the whole call that error:
   * the arguments after it are not evaluated and the callee is not applied.
   * The earlier arguments may change the heap (a function literal allocates, a
   * call encloses a frame); `hs` lists the heap before each of them in turn.
   */
  lemma {:induction false} ArgumentErrorPropagates(exps: seq<Expression>, i: nat, values: seq<Value>,
                                                   env: nat, hs: seq<HeapState>, fuel: nat, j: nat)
    requires i <= j < |exps| && |hs| == j - i + 1
    requires forall k | i <= k < j ::
               var (r, h') := EvalExpression(exps[k], env, hs[k - i], fuel);
               r.Normal? && !IsError(r.value) && h' == hs[k - i + 1]
    requires var r := EvalExpression(exps[j], env, hs[j - i], fuel).0; r.Normal? && IsError(r.value)
    ensures var (r, h') := EvalExpression(exps[j], env, hs[j - i], fuel);
            EvalExpressions(exps, i, values, env, hs[0], fuel) == (Normal([r.value]), h')
    decreases j - i
  {
    if i < j {
      var r := EvalExpression(exps[i], env, hs[0], fuel).0;
      ArgumentErrorPropagates(exps, i + 1, values + [r.value], env, hs[1..], fuel, j);
    }
  }

  /**
   * Identifiers: a builtin's name always means the builtin, even after a
   * `let` of that name; any other name bound by `let` in the current
   * environment reads as the bound value; an unbound, non-builtin name is
   * reported.
   */
  lemma LetThenLookup(name: string, v: Value, other: string, env: nat, h: HeapState)
    requires env < |h.frames| && other != name
    ensures Builtins.Named(name).Some? ==>
              EvalIdentifier(name, env, h.Set(env, name, v)) == Builtin(Builtins.Named(name).value)
    ensures Builtins.Named(name).None? ==> EvalIdentifier(name, env, h.Set(env, name, v)) == v
    ensures EvalIdentifier(other, env, h.Set(env, name, v)) == EvalIdentifier(other, env, h)
    ensures Builtins.Named(name).None? && h.Get(env, name).None? ==>
              EvalIdentifier(name, env, h) == Error("identifier not found: " + name)
  {
    GetAfterSet(h, env, name, v, env, name);
    GetAfterSet(h, env, name, v, env, other);
  }

  /** Binding parameters only writes names among them, and only in `env`. */
  lemma {:induction false} BindingKeepsOtherNames(parameters: seq<Identifier>, args: seq<Value>, i: nat, env: nat,
                                                  h: HeapState, e: nat, name: string)
    requires i <= |parameters| <= |args| && env < |h.frames|
    requires forall k | i <= k < |parameters| :: parameters[k].value != name
    ensures BindParameters(parameters, args, i, env, h).Get(e, name) == h.Get(e, name)
    ensures |BindParameters(parameters, args, i, env, h).frames| == |h.frames|
    decreases |parameters| - i
  {
    if i < |parameters| {
      var h' := h.Set(env, parameters[i].value, args[i]);
      GetAfterSet(h, env, parameters[i].value, args[i], e, name);
      BindingKeepsOtherNames(parameters, args, i + 1, env, h', e, name);
    }
  }

  /**
   * Parameters are bound positionally: parameter `k` reads as argument `k`
   * unless a later parameter has the same name (the later binding wins).
   */
  lemma {:induction false} BindingBindsParameter(parameters: seq<Identifier>, args: seq<Value>, i: nat, k: nat,
                                                 env: nat, h: HeapState)
    requires i <= k < |parameters| <= |args| && env < |h.frames|
    requires forall j | k < j < |parameters| :: parameters[j].value != parameters[k].value
    ensures BindParameters(parameters, args, i, env, h).Get(env, parameters[k].value) == Some(args[k])
    decreases |parameters| - i
  {
    var h' := h.Set(env, parameters[i].value, args[i]);
    if i == k {
      GetAfterSet(h, env, parameters[k].value, args[k], env, parameters[k].value);
      BindingKeepsOtherNames(parameters, args, i + 1, env, h', env, parameters[k].value);
    } else {
      BindingBindsParameter(parameters, args, i + 1, k, env, h');
    }
  }

  /**
   * Calling a Function with enough arguments runs its body, and unwraps the
   * result, in a brand-new environment that encloses the captured one: each
   * parameter reads as its argument and every other name reads as it does in
   * the captured environment. Too few arguments panic before anything is
   * created.
   */
  lemma CallEnvironment(parameters: seq<Identifier>, body: BlockStatement, captured: nat, id: nat,
                        args: seq<Value>, h: HeapState, fuel: nat, k: nat, name: string)
    requires captured < |h.frames|
    ensures |args| < |parameters| ==> Apply(Function(parameters, body, captured, id), args, h, fuel) == (Panicked(IndexOutOfRange), h)
    ensures |args| >= |parameters| ==>
              var env := |h.frames|;
              var inner := BindParameters(parameters, args, 0, env, h.Enclose(captured).1);
              var (r, h') := EvalBlock(body, env, inner, fuel);
              && Apply(Function(parameters, body, captured, id), args, h, fuel) == (if r.Normal? then Normal(Unwrap(r.value)) else r, h')
              && ((forall j | 0 <= j < |parameters| :: parameters[j].value != name) ==> inner.Get(env, name) == h.Get(captured, name))
              && (k < |parameters| && (forall j | k < j < |parameters| :: parameters[j].value != parameters[k].value) ==>
                    inner.Get(env, parameters[k].value) == Some(args[k]))
  {
    if |args| >= |parameters| {
      var (env, h1) := h.Enclose(captured);
      EncloseReads(h, captured, captured, name);
      if forall j | 0 <= j < |parameters| :: parameters[j].value != name {
        BindingKeepsOtherNames(parameters, args, 0, env, h1, env, name);
      }
      if k < |parameters| && (forall j | k < j < |parameters| :: parameters[j].value != parameters[k].value) {
        BindingBindsParameter(parameters, args, 0, k, env, h1);
      }
    }
  }

  /** Applying anything but a Function or a builtin: nil panics, every other object is reported. */
  lemma NotAFunction(f: Value, args: seq<Value>, h: HeapState, fuel: nat)
    requires !f.Function? && !f.Builtin?
    ensures f.Null? ==> Apply(f, args, h, fuel) == (Panicked(NilDereference), h)
    ensures !f.Null? ==> Apply(f, args, h, fuel) == (Normal(Error("not a function: " + f.Type())), h)
  {
  }

  /** The block `{ 10 }` evaluates to 10 and leaves the heap alone. */
  lemma TenBlock(t: Token, env: nat, h: HeapState, fuel: nat)
    requires fuel >= 3
    ensures EvalBlock(BlockStatement(t, [ExpressionStatement(t, IntegerLiteral(t, 10))]), env, h, fuel)
              == (Normal(Integer(10)), h)
  {
    var s := ExpressionStatement(t, IntegerLiteral(t, 10));
    assert EvalStatement(s, env, h, fuel - 1) == (Normal(Integer(10)), h);
    assert BlockLoop([s], 1, Integer(10), env, h, fuel - 1) == (Normal(Integer(10)), h);
  }

  /** `if (0) { 10 }` is NIL: the literal 0 is the shared ZERO, which is falsy. */
  lemma ZeroLiteralIsFalsy(t: Token, env: nat, h: HeapState, fuel: nat)
    requires fuel >= 3
    ensures var ten := BlockStatement(t, [ExpressionStatement(t, IntegerLiteral(t, 10))]);
            EvalIf(IntegerLiteral(t, 0), ten, None, env, h, fuel) == (Normal(Nil), h)
  {
    assert EvalExpression(IntegerLiteral(t, 0), env, h, fuel) == (Normal(Zero), h);
  }

  /** `if (1 - 1) { 10 }` is 10: a computed zero is a fresh Integer, which is truthy. */
  lemma ComputedZeroIsTruthy(t: Token, env: nat, h: HeapState, fuel: nat)
    requires fuel >= 3
    ensures var ten := BlockStatement(t, [ExpressionStatement(t, IntegerLiteral(t, 10))]);
            var zero := InfixExpression(t, IntegerLiteral(t, 1), "-", IntegerLiteral(t, 1));
            EvalIf(zero, ten, None, env, h, fuel) == (Normal(Integer(10)), h)
  {
    var one := IntegerLiteral(t, 1);
    assert EvalExpression(one, env, h, fuel - 1) == (Normal(Integer(1)), h);
    assert EvalRightOperand(Integer(1), "-", one, env, h, fuel - 1) == (Normal(Integer(0)), h);
    assert EvalExpression(InfixExpression(t, one, "-", one), env, h, fuel) == (Normal(Integer(0)), h);
    TenBlock(t, env, h, fuel);
  }

  /** `!!5` is TRUE: `!5` is FALSE, as is `!` of every object but FALSE and NIL. */
  lemma DoubleBangExample(t: Token, env: nat, h: HeapState, fuel: nat)
    requires fuel >= 2
    ensures EvalPrefix("!", PrefixExpression(t, "!", IntegerLiteral(t, 5)), env, h, fuel) == (Normal(Boolean(true)), h)
  {
    assert EvalExpression(IntegerLiteral(t, 5), env, h, fuel - 1) == (Normal(Integer(5)), h);
    assert EvalExpression(PrefixExpression(t, "!", IntegerLiteral(t, 5)), env, h, fuel) == (Normal(Boolean(false)), h);
  }

  /** "9; return 2 * 5; 9;" evaluates to 10: the statement after the return is never run. */
  lemma ReturnExample(t: Token, fuel: nat)
    requires fuel >= 4
    ensures var nine := ExpressionStatement(t, IntegerLiteral(t, 9));
            var ret := ReturnStatement(t, InfixExpression(t, IntegerLiteral(t, 2), "*", IntegerLiteral(t, 5)));
            Run(Program([nine, ret, nine]), fuel).0 == Normal(Integer(10))
  {
    var nine := ExpressionStatement(t, IntegerLiteral(t, 9));
    var product := InfixExpression(t, IntegerLiteral(t, 2), "*", IntegerLiteral(t, 5));
    var ret := ReturnStatement(t, product);
    var h := Initial();
    assert EvalStatement(nine, 0, h, fuel - 1) == (Normal(Integer(9)), h);
    assert BlockLoop([nine], 1, Integer(9), 0, h, fuel - 1) == (Normal(Integer(9)), h);
    assert EvalExpression(IntegerLiteral(t, 2), 0, h, fuel - 3) == (Normal(Integer(2)), h);
    assert EvalExpression(IntegerLiteral(t, 5), 0, h, fuel - 3) == (Normal(Integer(5)), h);
    assert EvalRightOperand(Integer(2), "*", IntegerLiteral(t, 5), 0, h, fuel - 3) == (Normal(Integer(10)), h);
    assert EvalExpression(product, 0, h, fuel - 2) == (Normal(Integer(10)), h);
    ProgramStopsAtReturn([nine], ret, [nine], 0, h, fuel);
    assert [nine] + [ret] + [nine] == [nine, ret, nine];
  }
}
