/**
 * What the evaluator's operator helpers promise: truthiness and `!`, which
 * compare with the shared instances; the order in which `evalInfixExpression`
 * picks its rules; int64 arithmetic with the division guard on the shared
 * ZERO; string concatenation and repetition; and the error texts.
 */
module OperatorProperties {
  import opened GoStrings
  import opened Objects
  import opened EvaluatorSpec

  function IntegerObject(v: Int64): Value
  {
    if v == 0 then Zero else Integer(v)
  }

  /**
   * `!` agrees with `truthy` everywhere except on the shared ZERO, which is
   * falsy and yet `!0` is FALSE; `!!v` is TRUE exactly for the truthy objects
   * and ZERO. A zero computed at run time is not the shared ZERO, so it is
   * truthy, and so is the nil interface.
   */
  lemma BangAgainstTruthy(v: Value)
    ensures Bang(v) == Boolean(!Truthy(v)) <==> v != Zero
    ensures Bang(Bang(v)) == Boolean(Truthy(v) || v == Zero)
    ensures !Truthy(Zero) && !Truthy(Nil) && !Truthy(Boolean(false))
    ensures Truthy(Integer(0)) && Truthy(Null) && Truthy(Boolean(true))
    ensures PrefixOutcome("!", v) == Normal(Bang(v))
  {
  }

  /** `-` negates an integer with int64 wrap-around and rejects every other kind of object. */
  lemma Negation(v: Int64, other: Value)
    requires !other.Null? && !other.Zero? && !other.Integer?
    ensures v != MinInt64 ==> PrefixOutcome("-", IntegerObject(v)) == Normal(Integer(-v))
    ensures PrefixOutcome("-", Integer(MinInt64)) == Normal(Integer(MinInt64))
    ensures PrefixOutcome("-", other) == Normal(Error("unknown operator: -" + other.Type()))
    ensures PrefixOutcome("-", Boolean(true)) == Normal(Error("unknown operator: -BOOLEAN"))
  {
    assert Wrap64(-MinInt64) == MinInt64;
    assert "unknown operator: -" + "BOOLEAN" == "unknown operator: -BOOLEAN";
  }

  /**
   * On two integers, `+` and `-` are exact while the result fits in int64 and
   * wrap around otherwise.
   */
  lemma IntegerSumDifference(a: Int64, b: Int64)
    ensures MinInt64 <= a + b <= MaxInt64 ==>
              InfixOutcome("+", IntegerObject(a), IntegerObject(b)) == Normal(Integer(a + b))
    ensures MinInt64 <= a - b <= MaxInt64 ==>
              InfixOutcome("-", IntegerObject(a), IntegerObject(b)) == Normal(Integer(a - b))
    ensures InfixOutcome("+", Integer(MaxInt64), Integer(1)) == Normal(Integer(MinInt64))
  {
  }

  /** `*` likewise: exact while the product fits in int64. */
  lemma IntegerProduct(a: Int64, b: Int64)
    ensures MinInt64 <= a * b <= MaxInt64 ==>
              InfixOutcome("*", IntegerObject(a), IntegerObject(b)) == Normal(Integer(a * b))
  {
  }

  /** Comparing two integers gives the shared TRUE or FALSE for the comparison of their values. */
  lemma IntegerComparisons(a: Int64, b: Int64)
    ensures var l, r := IntegerObject(a), IntegerObject(b);
            InfixOutcome("<", l, r) == Normal(Boolean(a < b))
            && InfixOutcome(">", l, r) == Normal(Boolean(a > b))
            && InfixOutcome("==", l, r) == Normal(Boolean(a == b))
            && InfixOutcome("!=", l, r) == Normal(Boolean(a != b))
  {
  }

  /**
   * Division by the shared ZERO (the literal `0`) is the division-by-zero error;
   * by a zero computed at run time Go panics.
   */
  lemma DivisionByZero(a: Int64)
    ensures InfixOutcome("/", IntegerObject(a), Zero)
            == Normal(Error("division by zero: it is impossible to divide by zero"))
    ensures InfixOutcome("/", IntegerObject(a), Integer(0)) == Panicked(IntegerDivideByZero)
  {
  }

  /**
   * Otherwise the quotient is truncated toward zero, leaving a remainder smaller
   * than the divisor and of the dividend's sign; MinInt64 / -1 wraps to MinInt64.
   */
  lemma Division(a: Int64, b: Int64)
    requires b != 0 && !(a == MinInt64 && b == -1)
    ensures var o := InfixOutcome("/", IntegerObject(a), IntegerObject(b));
            o.Normal? && o.value.Integer?
            && Abs(a - o.value.intValue * b) < Abs(b)
            && (a - o.value.intValue * b == 0 || (a - o.value.intValue * b < 0 <==> a < 0))
  {
    TruncDivTruncates(a, b);
    QuotientFits(a, b);
  }

  lemma DivisionWraps()
    ensures InfixOutcome("/", Integer(MinInt64), Integer(-1)) == Normal(Integer(MinInt64))
  {
    assert TruncDiv(MinInt64, -1) == -MinInt64;
  }

  /** A truncated quotient fits in int64 unless it is MinInt64 divided by -1. */
  lemma QuotientFits(a: Int64, b: Int64)
    requires b != 0 && !(a == MinInt64 && b == -1)
    ensures MinInt64 <= TruncDiv(a, b) <= MaxInt64
  {
    var x: nat, y: nat := Abs(a), Abs(b);
    var q := x / y;
    assert TruncDiv(a, b) == if (a < 0) == (b < 0) then q else -q;
    QuotientBound(x, y);
    if y == 1 {
      assert a == MinInt64 ==> b == 1;
    }
  }

  /** Dividing by at least 2 at least halves; dividing by 1 changes nothing. */
  lemma QuotientBound(x: nat, y: nat)
    requires y > 0
    ensures y == 1 ==> x / y == x
    ensures y >= 2 ==> 2 * (x / y) <= x
  {
    var q, r := x / y, x % y;
    assert x == q * y + r && 0 <= r;
    if y >= 2 {
      assert q * y == 2 * q + q * (y - 2);
      assert q * (y - 2) >= 0;
    }
  }

  /** `Repeat` writes its string once per count: it splits at any count. */
  lemma {:induction false} RepeatAdds(s: Bytes, m: nat, n: nat)
    ensures Repeat(s, m + n) == Repeat(s, m) + Repeat(s, n)
    decreases n
  {
    if n == 0 {
      assert Repeat(s, m) + Repeat(s, 0) == Repeat(s, m);
    } else {
      RepeatAdds(s, m, n - 1);
      assert Repeat(s, m + n) == Repeat(s, m + n - 1) + s;
      assert Repeat(s, m) + Repeat(s, n) == (Repeat(s, m) + Repeat(s, n - 1)) + s;
    }
  }

  /** `Repeat(s, n)` has `n` times the length of `s`, and is empty for a count of at most 0. */
  lemma {:induction false} RepeatLength(s: Bytes, n: int)
    ensures |Repeat(s, n)| == (if n > 0 then n * |s| else 0)
    decreases n
  {
    if n > 0 {
      RepeatLength(s, n - 1);
    }
  }

  /**
   * On strings: `+` concatenates two strings; `*` repeats the string by the
   * integer on either side; every other operator is unknown, `==` included.
   * A string `+` an integer, or a string `*` a string, fails Go's type assertion.
   */
  lemma StringOperators(a: Bytes, b: Bytes, n: Int64, op: string)
    requires op != "+" && op != "*"
    ensures InfixOutcome("+", String(a), String(b)) == Normal(String(a + b))
    ensures InfixOutcome("*", String(a), IntegerObject(n)) == Normal(String(Repeat(a, n)))
    ensures InfixOutcome("*", IntegerObject(n), String(a)) == Normal(String(Repeat(a, n)))
    ensures InfixOutcome(op, String(a), String(b)) == Normal(Error("unknown operator: STRING " + op + " STRING"))
    ensures InfixOutcome(op, String(a), IntegerObject(n)) == Normal(Error("unknown operator: STRING " + op + " INTEGER"))
    ensures InfixOutcome("+", String(a), IntegerObject(n)) == Panicked(FailedTypeAssertion)
    ensures InfixOutcome("*", String(a), String(b)) == Panicked(FailedTypeAssertion)
  {
    assert "unknown operator: " + "STRING" + " " + op + " " + "STRING" == "unknown operator: STRING " + op + " STRING";
    assert "unknown operator: " + "STRING" + " " + op + " " + "INTEGER" == "unknown operator: STRING " + op + " INTEGER";
  }

  /** Five copies, as a concatenation. */
  lemma RepeatFive(s: Bytes)
    ensures Repeat(s, 5) == s + s + s + s + s
  {
    assert Repeat(s, 1) == s by {
      assert Repeat(s, 1) == "" + s;
    }
    assert Repeat(s, 5) == Repeat(s, 1) + s + s + s + s;
  }

  /** `"foo" * 5` is "foofoofoofoofoo" and `"foo" * -1` is "". */
  lemma StringTimesFive(s: Bytes)
    requires s == "foo"
    ensures InfixOutcome("*", String(s), Integer(5)) == Normal(String("foofoofoofoofoo"))
    ensures InfixOutcome("*", String(s), Integer(-1)) == Normal(String(""))
  {
    var five := s + s + s + s + s;
    RepeatFive(s);
    assert five == "foofoofoofoofoo";
  }

  /**
   * Operands that are neither two integers nor a string with a string or an
   * integer: `==` is identity and `!=` its negation, and any other operator is
   * a type mismatch between different types or an unknown operator on one type.
   */
  lemma IdentityOperands(op: string, l: Value, r: Value)
    requires !l.Null? && !r.Null? && !(l.Type() == "INTEGER" && r.Type() == "INTEGER") && !StringOperands(l, r)
    ensures InfixOutcome("==", l, r) == Normal(Boolean(Identical(l, r)))
    ensures InfixOutcome("!=", l, r) == Normal(Bang(Boolean(Identical(l, r))))
    ensures op != "==" && op != "!=" && l.Type() != r.Type() ==>
              InfixOutcome(op, l, r) == Normal(Error("type mismatch: " + l.Type() + " " + op + " " + r.Type()))
    ensures op != "==" && op != "!=" && l.Type() == r.Type() ==>
              InfixOutcome(op, l, r) == Normal(Error("unknown operator: " + l.Type() + " " + op + " " + r.Type()))
  {
  }

  /** `true == true` is TRUE, while two separately made return values are never identical. */
  lemma IdentityExamples(x: Value, i: nat, j: nat)
    requires i != j
    ensures InfixOutcome("==", Boolean(true), Boolean(true)) == Normal(Boolean(true))
    ensures InfixOutcome("==", ReturnValue(x, i), ReturnValue(x, j)) == Normal(Boolean(false))
  {
  }

  /** A nil operand panics whatever the operator, except under `!`. */
  lemma NilOperands(op: string, v: Value)
    ensures InfixOutcome(op, Null, v) == InfixOutcome(op, v, Null) == Panicked(NilDereference)
    ensures op != "!" ==> PrefixOutcome(op, Null) == Panicked(NilDereference)
    ensures PrefixOutcome("!", Null) == Normal(Boolean(false))
  {
  }
}
