/**
 The erased invocation entry (`FunctionContainer::Invoker`).

 A call packs its arguments into a tuple and hands the registry's entry an
 untyped pointer to it together with an untyped pointer to the result slot.
 The entry reads the tuple as the tuple type deduced for its callable, calls
 the callable with the tuple's elements in index order and, unless the
 callable returns `void`, writes the value into the result slot.

 Values here carry their type, so the reinterpretation of the untyped pointer
 becomes a precondition: the bundle's types are exactly the deduced tuple
 type. Without it the C++ code reads memory of the wrong layout, which has no
 behaviour to model.
 */
module Invoker {
  import opened Signature

  /** `int` on the platforms the library targets. */
  newtype int32 = x: int | -0x8000_0000 <= x < 0x8000_0000

  /** A value as a callable receives or returns it, tagged with its type. */
  datatype Value = IntVal(i: int32) | StringVal(s: string) | CharPtrVal(chars: string)

  function TypeOf(v: Value): BaseType {
    match v
    case IntVal(_) => Int
    case StringVal(_) => StdString
    case CharPtrVal(_) => ConstCharPtr
  }

  /** The type an argument has in the call site's tuple: `std::make_tuple`
      decays it to an unqualified value type. */
  function ArgumentType(v: Value): CType {
    CType(TypeOf(v), false, false, NotRef)
  }

  function ArgumentTypes(args: seq<Value>): seq<CType> {
    seq(|args|, i requires 0 <= i < |args| => ArgumentType(args[i]))
  }

  /** The call site's tuple has exactly the layout of the callable's
      deduced `tuple_type`. */
  predicate ArgsFit(sig: FunctionType, args: seq<Value>) {
    ArgumentTypes(args) == TupleType(sig)
  }

  /** A value is of the callable's (decayed) result type; anything fits `void`. */
  predicate ReturnFits(ret: ReturnType, v: Value) {
    ret.Returns? ==> TypeOf(v) == ret.t.base
  }

  /** Arguments fit a signature exactly when there is one per parameter and
      each has that parameter's type once references and qualifiers are
      dropped. */
  lemma ArgsFitIff(sig: FunctionType, args: seq<Value>)
    ensures ArgsFit(sig, args) <==>
      |args| == Arity(sig) && forall i :: 0 <= i < |args| ==> TypeOf(args[i]) == ArgType(sig, i).base
  {
  }

  /** `std::tuple<Args...>`, nested the way the standard library builds it:
      the first element and the tuple of the rest. */
  datatype Tuple = Empty | Cons(head: Value, tail: Tuple)

  /** `std::tuple_size`. */
  function Size(t: Tuple): nat {
    match t
    case Empty => 0
    case Cons(_, rest) => 1 + Size(rest)
  }

  /** `std::make_tuple(args...)`: one element per argument. */
  function MakeTuple(args: seq<Value>): (t: Tuple)
    ensures Size(t) == |args|
  {
    if args == [] then Empty else Cons(args[0], MakeTuple(args[1..]))
  }

  /** `std::get<I>(t)`. */
  function Get(t: Tuple, i: nat): Value
    requires i < Size(t)
  {
    if i == 0 then t.head else Get(t.tail, i - 1)
  }

  /** Element `I` of the packed tuple is argument `I` of the call. */
  lemma {:induction false} GetMakeTuple(args: seq<Value>, i: nat)
    requires i < |args|
    ensures Get(MakeTuple(args), i) == args[i]
  {
    if i > 0 {
      GetMakeTuple(args[1..], i - 1);
    }
  }

  /** `std::make_index_sequence<n>`: the indices 0 to n - 1 in order. */
  function IndexSequence(n: nat): (s: seq<nat>)
    ensures |s| == n && forall k :: 0 <= k < n ==> s[k] == k
  {
    if n == 0 then [] else IndexSequence(n - 1) + [n - 1]
  }

  /** The pack expansion `std::get<I>(tup)...` over a list of indices. */
  function Expand(tup: Tuple, indices: seq<nat>): (args: seq<Value>)
    requires forall k :: 0 <= k < |indices| ==> indices[k] < Size(tup)
    ensures |args| == |indices|
    ensures forall k :: 0 <= k < |indices| ==> args[k] == Get(tup, indices[k])
  {
    if indices == [] then [] else [Get(tup, indices[0])] + Expand(tup, indices[1..])
  }

  /** The arguments `CallHelper` passes: every element of the tuple, in index order. */
  function Unpacked(tup: Tuple): seq<Value> {
    Expand(tup, IndexSequence(Size(tup)))
  }

  /** `CallHelper`: `f(std::get<I>(tup)...)`. */
  function CallHelper(f: seq<Value> -> Value, tup: Tuple): Value {
    f(Unpacked(tup))
  }

  /** Packing the arguments and expanding the tuple again gives back the
      arguments, in the same positions. */
  lemma UnpackedMakeTuple(args: seq<Value>)
    ensures Unpacked(MakeTuple(args)) == args
  {
  }

  /** Calling through the tuple is calling the callable directly with the
      arguments in the order they were given. */
  lemma CallHelperIsDirectCall(f: seq<Value> -> Value, args: seq<Value>)
    ensures CallHelper(f, MakeTuple(args)) == f(args)
  {
    UnpackedMakeTuple(args);
  }

  /** A callable as registered: its shape (which fixes its signature) and
      what it computes from its arguments. The value a `void` callable's body
      yields is never read. */
  datatype Callable = Callable(shape: Shape, body: seq<Value> -> Value)

  /** A stored entry: the callable's code and the signature deduced for it. */
  datatype Entry = Entry(sig: FunctionType, fn: seq<Value> -> Value)

  /** `std::bind(&Invoker<Function>::Apply, fn, _1, _2)`: the entry keeps the
      callable and the signature `function_traits` deduces for its shape. */
  function MakeEntry(c: Callable): (e: Entry)
    ensures e.sig == Adjusted(c.shape.fn)
    ensures e.fn == c.body
  {
    DeduceIsShapeSignature(c.shape);
    Entry(Deduce(c.shape), c.body)
  }

  /** The callables the entry can be instantiated for. `CallHelper` calls
      the callable through a `const` reference with `std::get<I>` of a
      `const` tuple, so the callable must be invocable as a `const` object
      (a function pointer, a `std::function`, or a function object whose
      call operator is `const`; a pointer to a member function has no object
      to be called on) and every parameter must accept a `const` lvalue of
      its decayed type (a value or a reference to `const`, not a non-`const`
      or rvalue reference). Anything else does not compile. */
  predicate Invocable(s: Shape) {
    && (s.Pointer? || s.StdFunction? ||
        (s.FunctionObject? && (s.q == ConstQualified || s.q == ConstVolatileQualified)))
    && forall i :: 0 <= i < |s.fn.params| ==>
         s.fn.params[i].ref == NotRef || (s.fn.params[i].ref == LValueRef && s.fn.params[i].isConst)
  }

  /** On arguments that fit its signature the entry's code returns a value of
      its declared result type: what C++'s static typing of the callable
      guarantees. */
  ghost predicate WellTyped(e: Entry) {
    forall args :: ArgsFit(e.sig, args) ==> ReturnFits(e.sig.ret, e.fn(args))
  }

  /** The caller's result slot, written through a pointer by the entry. */
  class ResultSlot {
    var value: Value

    constructor (initial: Value)
      ensures value == initial
    {
      value := initial;
    }
  }

  /** `Invoker<Function>::Apply` and the two `Invoker::Call` overloads: read
      the bundle as the deduced tuple type, call the callable with its
      elements, and write the value into the slot only when the result type
      is not `void`. A `void` callable leaves the slot alone, so it may be
      null; a non-void one writes through it, so it must not be. */
  method Apply(e: Entry, bundle: Tuple, result: ResultSlot?)
    requires ArgsFit(e.sig, Unpacked(bundle))
    requires e.sig.ret.Returns? ==> result != null
    modifies result
    ensures e.sig.ret.Void? && result != null ==> result.value == old(result.value)
    ensures e.sig.ret.Returns? ==> result.value == CallHelper(e.fn, bundle)
  {
    if e.sig.ret.Returns? {
      var r := CallHelper(e.fn, bundle);
      result.value := r;
    }
    // A `void` callable is called only for its effects, which are I/O and
    // outside the model.
  }
}
