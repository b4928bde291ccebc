/**
 The function registry (`Util::FunctionContainer`).

 A table from a name to an erased invocation entry. `RegisterHandler` stores
 an entry under a name, replacing whatever was there; `Call` and `VoidCall`
 look a name up, fail with `std::invalid_argument` when it is absent, and
 otherwise run the entry on the packed arguments. The table is the object's
 only state and is neither locked nor ever shrunk.
 */
module Container {
  import opened Signature
  import opened Invoker

  datatype Option<T> = None | Some(value: T)

  /** The exception `Call` and `VoidCall` throw, with the text `what()` returns. */
  datatype Error = InvalidArgument(message: string)

  datatype Result<T> = Ok(value: T) | Err(error: Error)

  const MessagePrefix: string := "Function: \""
  const MessageSuffix: string := "\" has not been registered."

  /** The message for a name that has no entry: the name in double quotes
      between the fixed prefix and suffix. */
  function NotRegisteredMessage(name: string): (msg: string)
    ensures |msg| == |MessagePrefix| + |name| + |MessageSuffix|
    ensures msg[..|MessagePrefix|] == MessagePrefix
    ensures msg[|MessagePrefix|..|MessagePrefix| + |name|] == name
    ensures msg[|msg| - |MessageSuffix|..] == MessageSuffix
  {
    MessagePrefix + name + MessageSuffix
  }

  /** The name a not-registered message is about, if the text has that form. */
  function NameInMessage(msg: string): Option<string> {
    var p, s := |MessagePrefix|, |MessageSuffix|;
    if |msg| >= p + s && msg[..p] == MessagePrefix && msg[|msg| - s..] == MessageSuffix
    then Some(msg[p..|msg| - s])
    else None
  }

  /** The message carries the offending name: it can be read back from it. */
  lemma MessageNamesItsFunction(name: string)
    ensures NameInMessage(NotRegisteredMessage(name)) == Some(name)
  {
  }

  /** Two names give the same message only if they are the same name. */
  lemma MessageDistinguishesNames(a: string, b: string)
    ensures NotRegisteredMessage(a) == NotRegisteredMessage(b) <==> a == b
  {
  }

  /** The table after `invokers[name] = ...`: the name maps to the new entry
      and every other name keeps the entry it had, or stays absent. */
  function Register(m: map<string, Entry>, name: string, fn: Callable): (m': map<string, Entry>)
    ensures m'.Keys == m.Keys + {name}
    ensures m'[name] == MakeEntry(fn)
    ensures forall n :: n in m && n != name ==> m'[n] == m[n]
  {
    m[name := MakeEntry(fn)]
  }

  /** Registering a name again replaces the earlier entry outright. */
  lemma RegisterOverwrites(m: map<string, Entry>, name: string, f: Callable, g: Callable)
    ensures Register(Register(m, name, f), name, g) == Register(m, name, g)
  {
  }

  /** After registering `fn` under `name`, the entry for `name` runs `fn`'s
      own code under the signature of `fn`'s shape, so a fitting call of
      `name` is `fn` applied to the arguments, whatever was there before. */
  lemma RegisteredEntryRunsCallable(m: map<string, Entry>, name: string, fn: Callable, args: seq<Value>)
    ensures name in Register(m, name, fn)
    ensures Register(m, name, fn)[name].sig == Deduce(fn.shape)
    ensures Register(m, name, fn)[name].fn(args) == fn.body(args)
  {
  }

  /** One `RegisterHandler` call. */
  datatype Registration = Registration(name: string, fn: Callable)

  /** The table after a series of `RegisterHandler` calls, in order. */
  function RegisterAll(m: map<string, Entry>, regs: seq<Registration>): map<string, Entry> {
    if regs == [] then m
    else
      var last := regs[|regs| - 1];
      Register(RegisterAll(m, regs[..|regs| - 1]), last.name, last.fn)
  }

  /** The callable of the last registration under `name` in a series. */
  function LastRegistered(regs: seq<Registration>, name: string): (r: Option<Callable>)
    ensures r.None? <==> forall i :: 0 <= i < |regs| ==> regs[i].name != name
    ensures r.Some? ==> exists i :: 0 <= i < |regs| && regs[i] == Registration(name, r.value) &&
                                   forall j :: i < j < |regs| ==> regs[j].name != name
  {
    if regs == [] then None
    else if regs[|regs| - 1].name == name then Some(regs[|regs| - 1].fn)
    else LastRegistered(regs[..|regs| - 1], name)
  }

  /** Last write wins: after a series of registrations a name holds the entry
      of its last registration, and a name never registered is as before. */
  lemma {:induction false} RegisterAllLookup(m: map<string, Entry>, regs: seq<Registration>, name: string)
    ensures match LastRegistered(regs, name)
      case Some(f) => name in RegisterAll(m, regs) && RegisterAll(m, regs)[name] == MakeEntry(f)
      case None => (name in RegisterAll(m, regs) <==> name in m) &&
                   (name in m ==> RegisterAll(m, regs)[name] == m[name])
  {
    if regs != [] {
      RegisterAllLookup(m, regs[..|regs| - 1], name);
    }
  }

  /** A call site fits an entry's signature: its arguments have exactly the
      deduced tuple layout, and a callable that returns a value returns the
      requested type `T` once decayed (the entry writes that type into the
      caller's `T` slot). */
  predicate CallFits(sig: FunctionType, want: BaseType, args: seq<Value>) {
    && ArgsFit(sig, args)
    && (sig.ret.Returns? ==> sig.ret.t.base == want)
  }

  /** The value of a default-constructed `T t;`. For `int` and pointers C++
      leaves it indeterminate; the model fixes zero and the empty text. */
  function Default(want: BaseType): (v: Value)
    ensures TypeOf(v) == want
  {
    match want
    case Int => IntVal(0)
    case StdString => StringVal("")
    case ConstCharPtr => CharPtrVal("")
  }

  class FunctionContainer {
    /** `invokers`: name to erased invocation entry. */
    var invokers: map<string, Entry>

    /** Every stored entry returns values of its declared result type. */
    ghost predicate Valid()
      reads this
    {
      forall n :: n in invokers ==> WellTyped(invokers[n])
    }

    constructor ()
      ensures invokers == map[]
      ensures Valid()
    {
      invokers := map[];
    }

    /** `RegisterHandler`: store the entry built from `fn` under `name`,
        replacing any entry already there; never fails. */
    method RegisterHandler(name: string, fn: Callable)
      requires Valid()
      requires Invocable(fn.shape)
      requires WellTyped(MakeEntry(fn))
      modifies this
      ensures Valid()
      ensures invokers == Register(old(invokers), name, fn)
    {
      invokers := invokers[name := MakeEntry(fn)];
    }

    /** `Call<T>`: an unknown name fails with the fixed message; otherwise the
        arguments are packed into a tuple, the entry writes its result into a
        default-constructed slot, and the slot's value is returned: the
        callable applied directly to the arguments, or the untouched default
        when the callable returns `void`. It only reads the table, so the
        table is the same afterwards either way. */
    method Call(want: BaseType, name: string, args: seq<Value>) returns (r: Result<Value>)
      requires Valid()
      requires name in invokers ==> CallFits(invokers[name].sig, want, args)
      ensures r.Err? <==> name !in invokers
      ensures r.Err? ==> r.error == InvalidArgument(NotRegisteredMessage(name))
      ensures r.Ok? ==> TypeOf(r.value) == want
      ensures r.Ok? && invokers[name].sig.ret.Returns? ==> r.value == invokers[name].fn(args)
      ensures r.Ok? && invokers[name].sig.ret.Void? ==> r.value == Default(want)
    {
      if name !in invokers {
        var message := NotRegisteredMessage(name);
        return Err(InvalidArgument(message));
      }
      var entry := invokers[name];
      var tp := MakeTuple(args);
      UnpackedMakeTuple(args);
      var t := new ResultSlot(Default(want));
      Apply(entry, tp, t);
      CallHelperIsDirectCall(entry.fn, args);
      return Ok(t.value);
    }

    /** `VoidCall`: the same lookup and failure as `Call`; the entry runs with
        a null result slot, which is sound only for a `void` callable. It only
        reads the table. */
    method VoidCall(name: string, args: seq<Value>) returns (r: Result<()>)
      requires name in invokers ==> invokers[name].sig.ret.Void? && ArgsFit(invokers[name].sig, args)
      ensures r.Err? <==> name !in invokers
      ensures r.Err? ==> r.error == InvalidArgument(NotRegisteredMessage(name))
      ensures r.Ok? ==> r == Ok(())
    {
      if name !in invokers {
        var message := NotRegisteredMessage(name);
        return Err(InvalidArgument(message));
      }
      var argsTuple := MakeTuple(args);
      UnpackedMakeTuple(args);
      Apply(invokers[name], argsTuple, null);
      return Ok(());
    }
  }
}
