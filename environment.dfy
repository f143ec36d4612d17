/**
 * Environments (`object.Environment`, whose declaration lies outside the modelled
 * files): a store of bindings plus an optional enclosing environment, read by
 * `Get` (which falls back to the enclosing one) and written by `Set` (which
 * writes the innermost store only).
 *
 * The evaluator allocates environments (one per call) and objects whose
 * identity matters. Both live in a `Heap`: environment number `i` is
 * `frames[i]`, numbered in creation order, and `next` is the identity the
 * next allocated object receives. `HeapState` is the heap as a value, which
 * the specification functions thread through evaluation.
 */
module Environments {
  import opened Wrappers
  import opened Objects

  /** One environment: its own bindings and the number of the environment it encloses. */
  datatype Frame = Frame(store: map<string, Value>, outer: Option<nat>)

  datatype HeapState = HeapState(frames: seq<Frame>, next: nat)
  {
    /** Every environment encloses only older ones, so each outer chain ends. */
    ghost predicate WellFormed()
    {
      forall i | 0 <= i < |frames| :: frames[i].outer.Some? ==> frames[i].outer.value < i
    }

    /** `env.Get(name)`: the innermost binding along the outer chain. */
    function Get(env: nat, name: string): Option<Value>
      decreases env
    {
      if env >= |frames| then None
      else if name in frames[env].store then Some(frames[env].store[name])
      else match frames[env].outer
        case Some(o) => if o < env then Get(o, name) else None
        case None => None
    }

    /** `env.Set(name, v)`: binds in the environment itself, never in an outer one. */
    function Set(env: nat, name: string, v: Value): (h: HeapState)
      ensures |h.frames| == |frames| && h.next == next
    {
      if env < |frames| then
        this.(frames := frames[env := frames[env].(store := frames[env].store[name := v])])
      else this
    }

    /** `NewEnclosedEnvironment(outer)`: a new, empty environment enclosing `outer`. */
    function Enclose(outer: nat): (r: (nat, HeapState))
      ensures r.0 == |frames| && |r.1.frames| == |frames| + 1
    {
      (|frames|, this.(frames := frames + [Frame(map[], Some(outer))]))
    }

    /** A fresh object identity. */
    function Allocate(): (r: (nat, HeapState))
      ensures r.0 == next && r.1.next > r.0 && r.1.frames == frames
    {
      (next, this.(next := next + 1))
    }
  }

  /** The heap `NewEnvironment()` starts from: environment 0, with no bindings and no outer. */
  function Initial(): (h: HeapState)
    ensures h.WellFormed() && |h.frames| == 1
  {
    HeapState([Frame(map[], None)], 0)
  }

  /**
   * Set then Get: the name is now bound to the new value in that environment,
   * and every other name reads as before in every environment.
   */
  lemma {:induction false} GetAfterSet(h: HeapState, env: nat, name: string, v: Value, e: nat, m: string)
    requires env < |h.frames|
    ensures h.Set(env, name, v).Get(env, name) == Some(v)
    ensures m != name ==> h.Set(env, name, v).Get(e, m) == h.Get(e, m)
    decreases e
  {
    var h' := h.Set(env, name, v);
    if m != name && e < |h.frames| && m !in h.frames[e].store {
      assert m !in h'.frames[e].store;
      match h.frames[e].outer
      case Some(o) =>
        if o < e {
          GetAfterSet(h, env, name, v, o, m);
        }
      case None =>
    }
  }

  /** Set keeps the frames' outer links, so a well-formed heap stays well-formed. */
  lemma SetWellFormed(h: HeapState, env: nat, name: string, v: Value)
    requires h.WellFormed()
    ensures h.Set(env, name, v).WellFormed()
  {
  }

  /**
   * A new enclosed environment starts empty, so it reads exactly as its outer
   * environment does; the environments that already existed read as before.
   */
  lemma {:induction false} EncloseReads(h: HeapState, outer: nat, e: nat, name: string)
    requires outer < |h.frames|
    ensures var (env, h') := h.Enclose(outer);
            h'.Get(env, name) == h.Get(outer, name) && h'.WellFormed() == h.WellFormed()
    ensures e < |h.frames| ==> h.Enclose(outer).1.Get(e, name) == h.Get(e, name)
    decreases e
  {
    var (env, h') := h.Enclose(outer);
    assert h'.frames[env] == Frame(map[], Some(outer));
    OldFramesRead(h, h', outer, name);
    if e < |h.frames| {
      OldFramesRead(h, h', e, name);
    }
  }

  /** Appending frames does not change what the existing environments read. */
  lemma {:induction false} OldFramesRead(h: HeapState, h': HeapState, e: nat, name: string)
    requires |h.frames| <= |h'.frames| && h'.frames[..|h.frames|] == h.frames
    requires e < |h.frames|
    ensures h'.Get(e, name) == h.Get(e, name)
    decreases e
  {
    assert h'.frames[e] == h.frames[e];
    if name !in h.frames[e].store {
      match h.frames[e].outer
      case Some(o) =>
        if o < e {
          OldFramesRead(h, h', o, name);
        }
      case None =>
    }
  }

  /**
   * The environments and the allocation counter, as fields that the evaluator's
   * methods update in place.
   */
  class Heap {
    var frames: seq<Frame>
    var next: nat

    function State(): HeapState
      reads this
    {
      HeapState(frames, next)
    }

    /** `object.NewEnvironment()`: a heap holding the one top-level environment, numbered 0. */
    constructor ()
      ensures State() == Initial()
    {
      frames := [Frame(map[], None)];
      next := 0;
    }

    method NewEnclosedEnvironment(outer: nat) returns (env: nat)
      modifies this
      ensures (env, State()) == old(State()).Enclose(outer)
    {
      env := |frames|;
      frames := frames + [Frame(map[], Some(outer))];
    }

    method Set(env: nat, name: string, v: Value)
      modifies this
      ensures State() == old(State()).Set(env, name, v)
    {
      if env < |frames| {
        frames := frames[env := frames[env].(store := frames[env].store[name := v])];
      }
    }

    method Allocate() returns (id: nat)
      modifies this
      ensures (id, State()) == old(State()).Allocate()
    {
      id := next;
      next := next + 1;
    }
  }
}
