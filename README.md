# function-container, modelled in Dafny

The library is a small registry of callables, `Util::FunctionContainer`.
Callers register a callable under a string name.
Later they call it by name through one uniform interface.
`Call<T>(name, args...)` returns a `T`.
`VoidCall(name, args...)` returns nothing.
Behind that interface the arguments are packed into a `std::tuple` and handed to a stored "invoker" as an untyped pointer.
The invoker reads them back as the tuple type deduced from the callable's signature.
It calls the callable with the tuple's elements in index order.
When the callable returns a value, the invoker writes it into the caller's result slot through an untyped pointer.

The signature traits (`function_traits`) cover plain function types, function pointers, `std::function`s, pointers to member functions under each cv-qualifier, and function objects such as lambdas.
The registry itself accepts fewer: it calls the callable through a `const` reference with `std::get<I>` of a `const` tuple.
So only function pointers, `std::function`s and function objects whose call operator is `const` can be registered, and each parameter must be a value or a reference to `const`.
The model states this as `Invoker.Invocable`, a precondition of `RegisterHandler`.

The model has four modules:

- `Signature` (`signature.dfy`) models `function_traits`. Every callable shape is reduced to one plain function type `Ret(Args...)`. From that type come `ARITY`, `args<I>`, `result_type`, `tuple_type` and `bare_tuple_type`.
- `Invoker` (`invoker.dfy`) holds tagged values, the argument tuple (`make_tuple`, `get<I>`, `make_index_sequence`), `CallHelper`, and the stored entry. It also has `Invoker::Apply` as a method that writes through a nullable `ResultSlot` object, the `T t` that `Call` passes by address.
- `Container` (`container.dfy`) holds the class `FunctionContainer` with its `invokers` map field, `RegisterHandler`, `Call` and `VoidCall`. It also holds the exact `invalid_argument` message and the lemmas about registering and looking up names.
- `Demo` (`demo.dfy`) replays the calls of the demonstration program `test_main.cpp` against the model.

The C++ code reinterprets memory: the argument tuple is read through a `void*` as the deduced tuple type, and the result is written through a cast pointer.
That has no defined behaviour when the types disagree.
The model therefore states the well-typed case as the precondition of `Call`, `VoidCall` and `Apply`.
- The call site's decayed argument types must equal the callable's `tuple_type`.
- For `Call<T>`, `T` must be the callable's decayed result type, unless the callable returns `void`. In that case the default-constructed `T` is returned untouched.
- For `VoidCall`, the callable must return `void`, because its result slot is a null pointer.

The source has no run-time type check and no `TypeMismatch` error, so the model has none either.
Registration requires the callable's code to return values of its declared type on fitting arguments (`Invoker.WellTyped`).
C++ typing guarantees this in the source.
The container keeps it as its invariant `Valid()`.

## Model

| member | source | states |
|---|---|---|
| Signature.DeduceIsShapeSignature | include/FuntionContainer.hpp:16-59 | a function pointer, a `std::function`, a member function under each of the four cv-qualifiers, and a function object (through its call operator) all deduce the same function type as the plain signature `Ret(Args...)`; `result_type` is the declared return type and `ARITY` the parameter count; each `args<I>` keeps its declared base type and reference kind, and a non-reference parameter loses its top-level `const` and `volatile`, as in any C++ function type |
| Signature.TupleType | include/FuntionContainer.hpp:33 | `tuple_type` has one element per parameter (`ARITY` many); element `I` has the base type of `args<I>` with reference, `const` and `volatile` removed |
| Signature.BareTupleType | include/FuntionContainer.hpp:34 | `bare_tuple_type` has one element per parameter; it drops reference and `const` but keeps `volatile` |
| Signature.BareTupleTypeWithoutVolatile | include/FuntionContainer.hpp:33-34 | for any shape with no reference-to-`volatile` parameter, the deduced bare tuple type and tuple type are the same (a top-level `volatile` on a value parameter is already gone from the function type) |
| Invoker.ArgsFitIff | include/FuntionContainer.hpp:157-160 | the argument bundle has the deduced tuple layout exactly when there are `ARITY` arguments and argument `I` has the base type of `args<I>` (both directions) |
| Invoker.MakeTuple | include/FuntionContainer.hpp:119 | `make_tuple` builds a tuple with one element per argument |
| Invoker.GetMakeTuple | include/FuntionContainer.hpp:119-123 | `get<I>` of the packed tuple is argument `I` of the call |
| Invoker.IndexSequence | include/FuntionContainer.hpp:176 | `make_index_sequence<n>` is the indices 0 to n-1 in order |
| Invoker.Expand | include/FuntionContainer.hpp:169 | the pack expansion `get<I>(tup)...` yields one value per index, in the order of the indices |
| Invoker.UnpackedMakeTuple | include/FuntionContainer.hpp:166-170 | expanding a packed tuple over its index sequence gives back the call's arguments in their positions |
| Invoker.CallHelperIsDirectCall | include/FuntionContainer.hpp:166-170 | `CallHelper` on the packed arguments equals calling the callable directly with those arguments |
| Invoker.MakeEntry | include/FuntionContainer.hpp:94-96 | the stored entry keeps the callable's code, and its signature is the callable's declared signature with the parameter adjustment of a function type, whatever the shape |
| Invoker.ResultSlot.constructor | include/FuntionContainer.hpp:125 | the result slot starts out holding the default value it is constructed with |
| Invoker.Apply | include/FuntionContainer.hpp:157-185 | a `void` callable leaves the result slot untouched, and that slot may be null; a non-void callable writes exactly `CallHelper(fn, bundle)` into a non-null slot |
| Container.NotRegisteredMessage | include/FuntionContainer.hpp:114-115 | the message is `Function: "` followed by the name and then `" has not been registered.`, with the name at a fixed offset |
| Container.MessageNamesItsFunction | include/FuntionContainer.hpp:115 | the offending name can be read back from the message |
| Container.MessageDistinguishesNames | include/FuntionContainer.hpp:115 | two names give the same message exactly when they are equal |
| Container.Register | include/FuntionContainer.hpp:96 | after `invokers[name] = ...` the name maps to the entry built from the callable; every other name keeps its entry or stays absent; no name is removed |
| Container.RegisterOverwrites | include/FuntionContainer.hpp:96 | registering a name twice leaves the same table as registering only the second callable |
| Container.RegisteredEntryRunsCallable | include/FuntionContainer.hpp:96 | after registration the name's entry runs the new callable's code under the new callable's signature, whatever was registered before |
| Container.RegisterAllLookup | include/FuntionContainer.hpp:96 | after a series of registrations, a name holds the entry of its last registration (last write wins); a name never registered is present and unchanged exactly when it was before |
| Container.Default | include/FuntionContainer.hpp:125 | the default-constructed `T t` has type `T` |
| Container.FunctionContainer.constructor | include/FuntionContainer.hpp:188 | a new container has an empty table |
| Container.FunctionContainer.RegisterHandler | include/FuntionContainer.hpp:88-97 | accepts only callables `CallHelper` can call (hpp:166-185); never fails; the new table is `Register(old table, name, fn)` and the invariant that every entry is well typed is kept |
| Container.FunctionContainer.Call | include/FuntionContainer.hpp:107-128 | fails exactly when the name is absent, with `invalid_argument` carrying the fixed message for that name; otherwise it returns a `T`: the registered callable applied to the arguments, or the untouched default for a `void` callable; no modifies clause, so the table is unchanged |
| Container.FunctionContainer.VoidCall | include/FuntionContainer.hpp:136-150 | fails exactly when the name is absent, with the same message; otherwise it succeeds with `Ok(())`; it may only be used for `void` callables (null result slot); the table is unchanged |
| Demo.Wrap32 | test_main.cpp:34 | the wrap-around sum agrees with the exact sum whenever that fits in `int` |
| Demo.AddLambdaWellTyped | test_main.cpp:34 | the `Add` lambda returns an `int` on two `int` arguments |
| Demo.StringLambdaWellTyped | test_main.cpp:36 | the `String` lambda returns a `std::string` on an `int` and a string |
| Demo.CallSitesFit | test_main.cpp:39-44 | the demonstration's four call sites match the signatures deduced for the lambdas they call |
| Demo.ToString142857 | test_main.cpp:36 | `to_string(142857)` is `"142857"` |
| Demo.StringLambdaOnExample | test_main.cpp:36-41 | the `String` lambda on 142857 and `"test"` gives `"142857test"` |
| Demo.NonExistMessage | test_main.cpp:45 | the message for `"Non-exist"` is `Function: "Non-exist" has not been registered.` |
| Demo.RegisterLambdas | test_main.cpp:31-37 | after the four registrations the table holds exactly `Add`, `Void`, `String` and `Ptr`, each with its lambda's entry |
| Demo.TypedCalls | test_main.cpp:39-42 | `Call<int>("Add", 1, 2)` gives 3 and `Call<string>("String", 142857, string("test"))` gives `"142857test"` |
| Demo.VoidCalls | test_main.cpp:43-45 | `VoidCall("Void")` and `VoidCall("Ptr", "test", 66)` both return `Ok(())`, and `VoidCall("Non-exist")` fails with the fixed message |
| Demo.Scenario | test_main.cpp:29-54 | the whole demonstration: sum 3, text `"142857test"`, the two successful void calls, the `"Non-exist"` failure, and exit status `EXIT_FAILURE` |

## Left out

- Undefined behaviour on a type mismatch is not modelled. This covers reading the argument bundle as the wrong tuple type, `Call<T>` with a `T` other than the result type, and `VoidCall` of a non-void callable, which writes through a null pointer. Each is excluded by a precondition instead.
- Container.FunctionContainer.Call: the value of `T t` for `int` and pointer types is indeterminate in C++. Returning it after a `void` callable reached through `Call<T>` is undefined behaviour. The model returns the fixed `Default(T)` (zero, or the empty text) instead.
- Registering a callable that `CallHelper` cannot call does not compile, so it has no behaviour to model; `RegisterHandler` requires `Invocable` instead. This covers pointers to member functions (no object to call them on), function objects whose call operator is not `const`, and parameters that are non-`const` lvalue or rvalue references. A function named directly, so that `Function` is deduced as a plain function type, is left out as well.
- Placement `new` into a `char` buffer, the `void*` casts and the `std::function<void(void*, void*)>` wrapper are represented by their effect only. The same goes for `std::bind`, `enable_if`/`result_of` dispatch and `index_sequence`.
- `Call` declares its buffer as `std::tuple<Args...>` with forwarding-reference `Args`. An lvalue argument would make that a tuple of references, which cannot be default-constructed, so such a call does not compile. The model's arguments are always the decayed values that `make_tuple` produces.
- `to_function` and `to_function_pointer` (include/FuntionContainer.hpp:61-77) are not modelled. They are static casts into standard-library types that the registry never uses.
- The callables' side effects are not modelled: the printing of the demo's `Void` and `Ptr` lambdas is I/O. Model callables are pure functions of their arguments, and the value a `void` callable's body yields is never read.
- The exception object is modelled as an error result that carries its `what()` text. Control transfer by `throw` is not modelled.
- Concurrency is not modelled. The map has no lock, and the source makes no claim about threads.
- The supported value types are limited to `int`, `std::string` and `const char*`, which are the ones the demonstration uses.
- Demo.Wrap32: signed overflow in the `Add` lambda is undefined in C++. The model wraps around in two's complement.
- `test_main.cpp`'s copying of `argv` into a vector, its unused `Wrapper` template and its printing are not modelled.
