/**
 * Runtime objects (object/object.go, and the kinds the evaluator uses whose
 * declarations live outside it: String, Error, Array, Function, Builtin).
 *
 * A Go `object.Object` is a pointer, and the evaluator compares some of them by
 * address. The shared instances NIL, TRUE, FALSE and ZERO are constructors of
 * their own, so `Zero` (the shared ZERO) and `Integer(0)` (a zero computed at
 * run time) are different values. Objects whose address the evaluator can
 * compare with another object of the same kind (return values, arrays,
 * functions) carry the identity `id` they were allocated with; a builtin is the
 * one map entry of its name. `Null` is the nil interface value: no object at all.
 */
module Objects {
  import opened Wrappers
  import opened GoStrings
  import opened Ast

  /** The entries of the `builtins` table (evaluator/builtins.go). */
  datatype BuiltinName = Len | First | Last | Tail | Head | Push | Puts

  /** The Go runtime errors evaluation can run into. */
  datatype Panic =
    /** A method called on a nil object or a nil node. */
    | NilDereference
    /** A failed `x.(*object.T)` type assertion. */
    | FailedTypeAssertion
    /** Integer division by a zero that is not the shared ZERO. */
    | IntegerDivideByZero
    /** A call with fewer arguments than parameters. */
    | IndexOutOfRange

  /**
   * How an evaluation ends: with a result, with a Go panic, or by exceeding the
   * nesting depth `fuel` allows.
   */
  datatype Outcome<T> = Normal(value: T) | Panicked(panic: Panic) | OutOfFuel

  datatype Value =
    | Null
    /** The shared NIL. */
    | Nil
    /** The shared TRUE or FALSE (no other Boolean is ever made). */
    | Boolean(boolValue: bool)
    /** The shared ZERO, the value of the literal `0`. */
    | Zero
    /** A freshly allocated Integer. */
    | Integer(intValue: Int64)
    | String(strValue: Bytes)
    | Error(message: string)
    | ReturnValue(value: Value, id: nat)
    | Array(elements: seq<Value>, id: nat)
    /** A closure over the environment numbered `env`. */
    | Function(parameters: seq<Identifier>, body: BlockStatement, env: nat, id: nat)
    | Builtin(fn: BuiltinName)
  {
    /** `Type()`; calling it on the nil interface panics. */
    function Type(): (t: string)
      requires !Null?
      ensures t == "INTEGER" <==> Zero? || Integer?
    {
      match this
      case Nil => "NIL"
      case Boolean(_) => "BOOLEAN"
      case Zero => "INTEGER"
      case Integer(_) => "INTEGER"
      case String(_) => "STRING"
      case Error(_) => "ERROR"
      case ReturnValue(_, _) => "RETURN_VALUE"
      case Array(_, _) => "ARRAY"
      case Function(_, _, _, _) => "FUNCTION"
      case Builtin(_) => "BUILTIN"
    }

    /** The int64 held by an INTEGER object. */
    function IntValue(): Int64
      requires Zero? || Integer?
    {
      if Zero? then 0 else intValue
    }

    /** The kinds whose `Inspect` is defined in object/object.go. */
    predicate Inspectable()
    {
      Nil? || Boolean? || Zero? || Integer? || (ReturnValue? && value.Inspectable())
    }

    /**
     * Asking this object for its `Inspect()` ends in a method call on nil: it is
     * the nil interface, or a return value whose `Inspect` forwards to one.
     */
    predicate ReachesNil()
    {
      Null? || (ReturnValue? && value.ReachesNil())
    }

    /** `Inspect()`: `%d`, `%t`, "nil", and a return value shows what it wraps. */
    function Inspect(): string
      requires Inspectable()
    {
      match this
      case Nil => "nil"
      case Boolean(b) => if b then "true" else "false"
      case Zero => "0"
      case Integer(v) => FormatInt(v)
      case ReturnValue(v, _) => v.Inspect()
    }
  }

  /**
   * Go's `==` on two objects: the same allocation. Fresh integers, strings and
   * errors carry no identity here; the evaluator never compares them by address
   * (see OperatorProperties.IdentityOperands).
   */
  function Identical(a: Value, b: Value): (r: bool)
    ensures r ==> a == b
  {
    match (a, b)
    case (Null, Null) => true
    case (Nil, Nil) => true
    case (Boolean(x), Boolean(y)) => x == y
    case (Zero, Zero) => true
    case (ReturnValue(_, i), ReturnValue(_, j)) => a == b
    case (Array(_, i), Array(_, j)) => a == b
    case (Function(_, _, _, i), Function(_, _, _, j)) => a == b
    case (Builtin(m), Builtin(n)) => m == n
    case _ => false
  }

  /** The shared TRUE or FALSE for a Go bool (`nativeBoolToBooleanObject`). */
  function NativeBool(b: bool): Value
  {
    Boolean(b)
  }

  /**
   * An integer renders in signed decimal, and a non-negative one reads back to
   * the same value; a return value renders exactly as the value it wraps.
   */
  lemma InspectIntegers(v: Int64)
    ensures Integer(v).Type() == "INTEGER" && Zero.Inspect() == Integer(0).Inspect() == "0"
    ensures Integer(v).Inspect()[0] == '-' <==> v < 0
    ensures v >= 0 ==> ParseInt(Integer(v).Inspect()) == Some(v)
  {
    if v >= 0 {
      ParseFormatRoundTrip(v);
    }
  }

  /** The Type/Inspect pairs of object/object.go. */
  lemma TypeAndInspect(b: bool, inner: Value, id: nat)
    requires inner.Inspectable()
    ensures Boolean(b).Type() == "BOOLEAN" && Boolean(b).Inspect() == (if b then "true" else "false")
    ensures Nil.Type() == "NIL" && Nil.Inspect() == "nil"
    ensures ReturnValue(inner, id).Type() == "RETURN_VALUE" && ReturnValue(inner, id).Inspect() == inner.Inspect()
  {
  }
}
