/**
 Signature deduction for registered callables (`function_traits`).

 Every callable shape the traits cover (a plain function type, a function
 pointer, a `std::function`, a pointer to a member function with any of its
 four cv-qualifiers, or a function object with a single call operator) is
 reduced to one plain function type `Ret(Args...)`; which of them the
 registry can also call is `Invoker.Invocable`. From that type the traits
 read off the arity, the parameter types, the result type and the tuple type
 in which the arguments travel through the registry.
 */
module Signature {

  /** The value types the model's callables take and return, with references
      and top-level cv-qualifiers removed (`const char*` is a pointer to const,
      so its `const` is part of the base type, not a top-level qualifier). */
  datatype BaseType = Int | StdString | ConstCharPtr

  datatype RefKind = NotRef | LValueRef | RValueRef

  /** A parameter or return type as written in a declaration: a base type,
      its `const` and `volatile` (those of the referred-to type when it is a
      reference), and whether it is a reference. */
  datatype CType = CType(base: BaseType, isConst: bool, isVolatile: bool, ref: RefKind)

  /** The return type of a callable; `Void` is the absence of a value. */
  datatype ReturnType = Void | Returns(t: CType)

  /** The plain function type `Ret(Args...)`. */
  datatype FunctionType = FunctionType(ret: ReturnType, params: seq<CType>)

  /** The cv-qualifier of a member function. */
  datatype Qualifier = NoQualifier | ConstQualified | VolatileQualified | ConstVolatileQualified

  /** The shapes of callable the traits have a specialisation for. A function
      object is described by its call operator, `&Callable::operator()`, which
      is a pointer to a member function of the object's own class. */
  datatype Shape =
    | Plain(fn: FunctionType)
    | Pointer(fn: FunctionType)
    | StdFunction(fn: FunctionType)
    | MemberFunction(cls: string, fn: FunctionType, q: Qualifier)
    | FunctionObject(cls: string, fn: FunctionType, q: Qualifier)

  /** How many specialisations a shape passes through before the plain one. */
  function Rank(s: Shape): nat {
    match s
    case Plain(_) => 0
    case FunctionObject(_, _, _) => 2
    case _ => 1
  }

  /** A parameter as it stands in a function type: C++ drops the top-level
      `const` and `volatile` of a parameter that is not a reference when it
      forms the type (`void(volatile int)` is `void(int)`); those of a
      reference's referred-to type stay. */
  function AdjustParameter(t: CType): CType {
    if t.ref == NotRef then t.(isConst := false, isVolatile := false) else t
  }

  /** The function type `Ret(Args...)` a declared signature denotes. */
  function Adjusted(f: FunctionType): FunctionType {
    FunctionType(f.ret, seq(|f.params|, i requires 0 <= i < |f.params| => AdjustParameter(f.params[i])))
  }

  /** The plain function type a shape's specialisation derives from. A
      function object defers to the traits of its call operator. */
  function Deduce(s: Shape): FunctionType
    decreases Rank(s)
  {
    match s
    case Plain(f) => Adjusted(f)
    case Pointer(f) => Deduce(Plain(f))
    case StdFunction(f) => Deduce(Plain(f))
    case MemberFunction(_, f, _) => Deduce(Plain(f))
    case FunctionObject(c, f, q) => Deduce(MemberFunction(c, f, q))
  }

  /** `ARITY`: the number of parameters. */
  function Arity(f: FunctionType): nat {
    |f.params|
  }

  /** `args<I>::type`, which only exists for an index below the arity. */
  function ArgType(f: FunctionType, i: nat): CType
    requires i < Arity(f)
  {
    f.params[i]
  }

  /** `result_type`. */
  function ResultType(f: FunctionType): ReturnType {
    f.ret
  }

  function RemoveReference(t: CType): CType {
    t.(ref := NotRef)
  }

  function RemoveCv(t: CType): CType {
    t.(isConst := false, isVolatile := false)
  }

  function RemoveConst(t: CType): CType {
    t.(isConst := false)
  }

  /** `tuple_type`: the parameter types with references and then top-level
      cv-qualifiers removed; the invoker reads the argument bundle as this. */
  function TupleType(f: FunctionType): (ts: seq<CType>)
    ensures |ts| == Arity(f)
    ensures forall i :: 0 <= i < |ts| ==>
      && ts[i].base == ArgType(f, i).base
      && !ts[i].isConst && !ts[i].isVolatile && ts[i].ref == NotRef
  {
    seq(|f.params|, i requires 0 <= i < |f.params| => RemoveCv(RemoveReference(f.params[i])))
  }

  /** `bare_tuple_type`: like `tuple_type` but only `const` is removed, so a
      `volatile` parameter stays `volatile`. */
  function BareTupleType(f: FunctionType): (ts: seq<CType>)
    ensures |ts| == Arity(f)
    ensures forall i :: 0 <= i < |ts| ==>
      && ts[i].base == ArgType(f, i).base
      && ts[i].isVolatile == ArgType(f, i).isVolatile
      && !ts[i].isConst && ts[i].ref == NotRef
  {
    seq(|f.params|, i requires 0 <= i < |f.params| => RemoveConst(RemoveReference(f.params[i])))
  }

  /** Every shape (a pointer, a `std::function`, a member function under
      any of the four qualifiers, a function object through its call
      operator) deduces what its plain signature deduces: the same result
      type, the same number of parameters, each with its declared base type
      and reference kind, and without the top-level cv-qualifiers that a
      parameter type loses in a function type. */
  lemma DeduceIsShapeSignature(s: Shape)
    ensures Deduce(s) == Deduce(Plain(s.fn))
    ensures ResultType(Deduce(s)) == s.fn.ret && Arity(Deduce(s)) == |s.fn.params|
    ensures forall i :: 0 <= i < |s.fn.params| ==>
      && ArgType(Deduce(s), i).base == s.fn.params[i].base
      && ArgType(Deduce(s), i).ref == s.fn.params[i].ref
      && (s.fn.params[i].ref == NotRef ==> !ArgType(Deduce(s), i).isConst && !ArgType(Deduce(s), i).isVolatile)
      && (s.fn.params[i].ref != NotRef ==> ArgType(Deduce(s), i) == s.fn.params[i])
  {
  }

  /** The bare tuple type and the tuple type differ only in `volatile`, and
      only a reference to `volatile` keeps it in the deduced signature; for a
      signature without one they coincide. */
  lemma BareTupleTypeWithoutVolatile(s: Shape)
    requires forall i :: 0 <= i < |s.fn.params| ==> s.fn.params[i].ref == NotRef || !s.fn.params[i].isVolatile
    ensures BareTupleType(Deduce(s)) == TupleType(Deduce(s))
  {
    DeduceIsShapeSignature(s);
    var b, t := BareTupleType(Deduce(s)), TupleType(Deduce(s));
    forall i | 0 <= i < |b|
      ensures b[i] == t[i]
    {
    }
  }
}
