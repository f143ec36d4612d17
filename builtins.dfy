/**
 * The builtin functions (evaluator/builtins.go). Each inspects its arguments and
 * returns an existing object, a freshly made one, or an error object; none of
 * them changes its arguments. A new Array receives the identity `id` the caller
 * allocated for it.
 */
module Builtins {
  import opened Wrappers
  import opened GoStrings
  import opened Objects

  /** The `builtins` table: which names are builtins. */
  function Named(name: string): (b: Option<BuiltinName>)
  {
    match name
    case "len" => Some(Len)
    case "first" => Some(First)
    case "last" => Some(Last)
    case "tail" => Some(Tail)
    case "head" => Some(Head)
    case "push" => Some(Push)
    case "puts" => Some(Puts)
    case _ => None
  }

  /** The table's key for each builtin. */
  function NameOf(b: BuiltinName): string
  {
    match b
    case Len => "len"
    case First => "first"
    case Last => "last"
    case Tail => "tail"
    case Head => "head"
    case Push => "push"
    case Puts => "puts"
  }

  /** Exactly the seven names of the table are builtins, each under its own key. */
  lemma NamedIsNameOf(name: string, b: BuiltinName)
    ensures Named(name) == Some(b) <==> name == NameOf(b)
    ensures Named(NameOf(b)) == Some(b)
  {
  }

  function WrongArgumentCount(got: nat, want: nat): Value
  {
    Error("wrong number of arguments. got=" + FormatInt(got) + ", want=" + FormatInt(want))
  }

  /** `len`: the byte length of a string or the element count of an array. */
  function LenOf(args: seq<Value>): Outcome<Value>
  {
    if |args| != 1 then Normal(WrongArgumentCount(|args|, 1))
    else match args[0]
      case String(s) => Normal(Integer(Wrap64(|s|)))
      case Array(elements, _) => Normal(Integer(Wrap64(|elements|)))
      case Null => Panicked(NilDereference)
      case _ => Normal(Error("argument to `len` not supported, got " + args[0].Type()))
  }

  /** `first`: an array's first element, or a string's first byte as a new string. */
  function FirstOf(args: seq<Value>): Outcome<Value>
  {
    if |args| != 1 then Normal(WrongArgumentCount(|args|, 1))
    else match args[0]
      case Array(elements, _) => Normal(if |elements| > 0 then elements[0] else Nil)
      case String(s) => Normal(if |s| > 0 then String(ByteString(s[0])) else Nil)
      case Null => Panicked(NilDereference)
      case _ => Normal(Error("invalid argument " + args[0].Type() + " to 'first', must be ARRAY or STRING."))
  }

  /** `last`: an array's last element, or a string's last byte as a new string. */
  function LastOf(args: seq<Value>): Outcome<Value>
  {
    if |args| != 1 then Normal(WrongArgumentCount(|args|, 1))
    else match args[0]
      case Array(elements, _) => Normal(if |elements| > 0 then elements[|elements| - 1] else Nil)
      case String(s) => Normal(if |s| > 0 then String(ByteString(s[|s| - 1])) else Nil)
      case Null => Panicked(NilDereference)
      case _ => Normal(Error("invalid argument " + args[0].Type() + " to 'last', must be ARRAY or STRING"))
  }

  /** `tail`: a new array of all elements but the first. */
  function TailOf(args: seq<Value>, id: nat): Outcome<Value>
  {
    if |args| != 1 then Normal(WrongArgumentCount(|args|, 1))
    else match args[0]
      case Array(elements, _) => Normal(if |elements| > 0 then Array(elements[1..], id) else Nil)
      case Null => Panicked(NilDereference)
      case _ => Normal(Error("invalid argument " + args[0].Type() + " to 'tail', must be ARRAY"))
  }

  /** `head`: a new array of all elements but the last (its error message names 'tail'). */
  function HeadOf(args: seq<Value>, id: nat): Outcome<Value>
  {
    if |args| != 1 then Normal(WrongArgumentCount(|args|, 1))
    else match args[0]
      case Array(elements, _) => Normal(if |elements| > 0 then Array(elements[..|elements| - 1], id) else Nil)
      case Null => Panicked(NilDereference)
      case _ => Normal(Error("invalid argument " + args[0].Type() + " to 'tail', must be ARRAY"))
  }

  /** `push`: a new array of the elements followed by the value (its error message names 'head'). */
  function PushOf(args: seq<Value>, id: nat): Outcome<Value>
  {
    if |args| != 2 then Normal(WrongArgumentCount(|args|, 2))
    else match args[0]
      case Array(elements, _) => Normal(Array(elements + [args[1]], id))
      case Null => Panicked(NilDereference)
      case _ => Normal(Error("invalid first argument " + args[0].Type() + " to 'head', must be ARRAY"))
  }

  /**
   * `puts`: asks each argument in turn for its `Inspect()` (the line it prints)
   * and returns NIL; the first argument whose rendering calls a method on nil
   * panics.
   */
  function PutsOf(args: seq<Value>): Outcome<Value>
  {
    if args == [] then Normal(Nil)
    else if args[0].ReachesNil() then Panicked(NilDereference)
    else PutsOf(args[1..])
  }

  /** Calling builtin `b` on `args`; a new array gets identity `id`. */
  function Call(b: BuiltinName, args: seq<Value>, id: nat): Outcome<Value>
  {
    match b
    case Len => LenOf(args)
    case First => FirstOf(args)
    case Last => LastOf(args)
    case Tail => TailOf(args, id)
    case Head => HeadOf(args, id)
    case Push => PushOf(args, id)
    case Puts => PutsOf(args)
  }

  /** Every builtin but `puts` takes one argument (`push` two) and reports any other count. */
  lemma ArgumentCounts(b: BuiltinName, args: seq<Value>, id: nat)
    requires b != Puts
    ensures var want := if b == Push then 2 else 1;
            |args| != want ==> Call(b, args, id) == Normal(WrongArgumentCount(|args|, want))
  {
  }

  /**
   * `puts` accepts any number of arguments and returns NIL, unless rendering one
   * of them calls a method on nil (a nil argument, or a return value wrapping
   * nil): then it panics, whatever the other arguments are.
   */
  lemma {:induction false} PutsResult(args: seq<Value>, id: nat)
    ensures Call(Puts, args, id) == Panicked(NilDereference)
            <==> exists k | 0 <= k < |args| :: args[k].ReachesNil()
    ensures Call(Puts, args, id) != Panicked(NilDereference) ==> Call(Puts, args, id) == Normal(Nil)
    decreases |args|
  {
    if args != [] && !args[0].ReachesNil() {
      PutsResult(args[1..], id);
      if exists k | 0 <= k < |args[1..]| :: args[1..][k].ReachesNil() {
        var k :| 0 <= k < |args[1..]| && args[1..][k].ReachesNil();
        assert args[k + 1].ReachesNil();
      }
      if exists k | 0 <= k < |args| :: args[k].ReachesNil() {
        var k :| 0 <= k < |args| && args[k].ReachesNil();
        assert args[1..][k - 1].ReachesNil();
      }
    }
  }

  /** A nil argument panics, and so does a return value wrapping nil; NIL and TRUE print. */
  lemma PutsExamples(id: nat)
    ensures Call(Puts, [Nil, Boolean(true)], id) == Normal(Nil)
    ensures Call(Puts, [Nil, Null], id) == Panicked(NilDereference)
    ensures Call(Puts, [ReturnValue(Null, id)], id) == Panicked(NilDereference)
  {
    assert [Nil, Boolean(true)][1..] == [Boolean(true)];
    assert [Nil, Null][1..] == [Null];
  }

  /** `len` counts bytes of a string and elements of an array, as a fresh Integer (never ZERO). */
  lemma LenCounts(s: Bytes, elements: seq<Value>, id: nat, other: Value)
    requires |s| <= MaxInt64 && |elements| <= MaxInt64
    requires !other.String? && !other.Array? && !other.Null?
    ensures LenOf([String(s)]) == Normal(Integer(|s|))
    ensures LenOf([Array(elements, id)]) == Normal(Integer(|elements|))
    ensures LenOf([other]) == Normal(Error("argument to `len` not supported, got " + other.Type()))
  {
  }

  /**
   * On a non-empty array, `first` and `tail` split it, and so do `head` and `last`;
   * the pieces are the original elements, so nothing is changed or lost.
   */
  lemma {:induction false} SplitsOfArrays(elements: seq<Value>, id: nat, id': nat)
    requires |elements| > 0
    ensures var f, t := FirstOf([Array(elements, id)]), TailOf([Array(elements, id)], id');
            f.Normal? && t.Normal? && t.value.Array? && t.value.id == id'
            && [f.value] + t.value.elements == elements
    ensures var h, l := HeadOf([Array(elements, id)], id'), LastOf([Array(elements, id)]);
            h.Normal? && l.Normal? && h.value.Array? && h.value.id == id'
            && h.value.elements + [l.value] == elements
  {
    assert [elements[0]] + elements[1..] == elements;
    assert elements[..|elements| - 1] + [elements[|elements| - 1]] == elements;
  }

  /** `first`, `last`, `tail` and `head` of an empty array, and `first`/`last` of an empty string, are NIL. */
  lemma EmptyGivesNil(id: nat, id': nat)
    ensures FirstOf([Array([], id)]) == LastOf([Array([], id)]) == Normal(Nil)
    ensures TailOf([Array([], id)], id') == HeadOf([Array([], id)], id') == Normal(Nil)
    ensures FirstOf([String("")]) == LastOf([String("")]) == Normal(Nil)
  {
  }

  /** `first` and `last` of a string are one-byte strings holding its first and last byte. */
  lemma StringEnds(s: Bytes)
    requires |s| > 0 && s[0] as int < 0x80 && s[|s| - 1] as int < 0x80
    ensures FirstOf([String(s)]).value.strValue == [s[0]]
    ensures LastOf([String(s)]).value.strValue == [s[|s| - 1]]
  {
  }

  /** `push` then `last` gives the pushed value and `push` then `head` the original elements. */
  lemma PushThenSplit(elements: seq<Value>, v: Value, id: nat, id': nat, id'': nat)
    ensures var p := PushOf([Array(elements, id), v], id');
            p == Normal(Array(elements + [v], id'))
            && LastOf([p.value]) == Normal(v)
            && HeadOf([p.value], id'') == Normal(Array(elements, id''))
            && LenOf([p.value]) == Normal(Integer(Wrap64(|elements| + 1)))
  {
    var p := PushOf([Array(elements, id), v], id');
    assert (elements + [v])[..|elements|] == elements;
  }

  /** Only arrays are accepted by `tail`, `head` and `push`; other objects give the documented error. */
  lemma NonArrayErrors(v: Value, w: Value, id: nat)
    requires !v.Array? && !v.Null?
    ensures TailOf([v], id) == Normal(Error("invalid argument " + v.Type() + " to 'tail', must be ARRAY"))
    ensures HeadOf([v], id) == TailOf([v], id)
    ensures PushOf([v, w], id) == Normal(Error("invalid first argument " + v.Type() + " to 'head', must be ARRAY"))
  {
  }
}
