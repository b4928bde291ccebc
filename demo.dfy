/**
 The demonstration program: four lambdas registered in one container, two
 typed calls, two void calls and a void call of a name that was never
 registered, which ends the program with the container's error.
 */
module Demo {
  import opened Signature
  import opened Invoker
  import opened Container

  const IntParam := CType(Int, false, false, NotRef)
  const ConstStringRef := CType(StdString, true, false, LValueRef)
  const StringValue := CType(StdString, false, false, NotRef)
  const CharPtrParam := CType(ConstCharPtr, false, false, NotRef)

  const EXIT_SUCCESS := 0
  const EXIT_FAILURE := 1

  /** Two's-complement wrap-around into `int`. Signed overflow is undefined
      in C++; this is what the usual targets do. */
  function Wrap32(x: int): (r: int32)
    ensures -0x8000_0000 <= x < 0x8000_0000 ==> r as int == x
  {
    ((x + 0x8000_0000) % 0x1_0000_0000 - 0x8000_0000) as int32
  }

  function DigitChar(d: nat): char
    requires d < 10
  {
    "0123456789"[d]
  }

  /** Decimal digits of a natural number, most significant first. */
  function NatToString(n: nat): string {
    if n < 10 then [DigitChar(n)] else NatToString(n / 10) + [DigitChar(n % 10)]
  }

  /** `std::to_string(int)`. */
  function IntToString(x: int32): string {
    if x < 0 then "-" + NatToString(-(x as int)) else NatToString(x as int)
  }

  /** `[](int a, int b) { return a + b; }` */
  function AddBody(args: seq<Value>): Value {
    if |args| == 2 && args[0].IntVal? && args[1].IntVal?
    then IntVal(Wrap32(args[0].i as int + args[1].i as int))
    else IntVal(0)  // arguments that do not fit the signature never reach it
  }

  /** `[](int a, const string& b) { return to_string(a) + b; }` */
  function StringBody(args: seq<Value>): Value {
    if |args| == 2 && args[0].IntVal? && args[1].StringVal?
    then StringVal(IntToString(args[0].i) + args[1].s)
    else StringVal("")  // arguments that do not fit the signature never reach it
  }

  /** The body of a lambda that only prints: the printing is I/O, and the
      value is never read because the lambda returns `void`. */
  function PrintOnly(args: seq<Value>): Value {
    IntVal(0)
  }

  /** Each lambda is a function object whose call operator is `const`. */
  const AddLambda := Callable(
    FunctionObject("Add", FunctionType(Returns(IntParam), [IntParam, IntParam]), ConstQualified), AddBody)
  const VoidLambda := Callable(
    FunctionObject("Void", FunctionType(Void, []), ConstQualified), PrintOnly)
  const StringLambda := Callable(
    FunctionObject("String", FunctionType(Returns(StringValue), [IntParam, ConstStringRef]), ConstQualified), StringBody)
  const PtrLambda := Callable(
    FunctionObject("Ptr", FunctionType(Void, [CharPtrParam, IntParam]), ConstQualified), PrintOnly)

  lemma AddLambdaWellTyped()
    ensures WellTyped(MakeEntry(AddLambda))
  {
  }

  lemma StringLambdaWellTyped()
    ensures WellTyped(MakeEntry(StringLambda))
  {
  }

  /** The demonstration's call sites fit the signatures deduced for the lambdas. */
  lemma CallSitesFit()
    ensures CallFits(MakeEntry(AddLambda).sig, Int, [IntVal(1), IntVal(2)])
    ensures CallFits(MakeEntry(StringLambda).sig, StdString, [IntVal(142857), StringVal("test")])
    ensures ArgsFit(MakeEntry(VoidLambda).sig, [])
    ensures ArgsFit(MakeEntry(PtrLambda).sig, [CharPtrVal("test"), IntVal(66)])
  {
  }

  /** `to_string(142857)` is the six digits of the number. */
  lemma ToString142857()
    ensures IntToString(142857) == "142857"
  {
    assert NatToString(1) == "1";
    assert NatToString(14) == "14";
    assert NatToString(142) == "142";
    assert NatToString(1428) == "1428";
    assert NatToString(14285) == "14285";
  }

  /** `String(142857, "test")` computes "142857test". */
  lemma StringLambdaOnExample()
    ensures StringBody([IntVal(142857), StringVal("test")]) == StringVal("142857test")
  {
  }

  /** The demonstration's registrations, in its order. */
  method RegisterLambdas() returns (con: FunctionContainer)
    ensures fresh(con) && HoldsLambdas(con)
  {
    con := new FunctionContainer();
    AddLambdaWellTyped();
    StringLambdaWellTyped();
    con.RegisterHandler("Add", AddLambda);
    con.RegisterHandler("Void", VoidLambda);
    con.RegisterHandler("String", StringLambda);
    con.RegisterHandler("Ptr", PtrLambda);
  }

  /** The table the demonstration's registrations leave. */
  ghost predicate HoldsLambdas(con: FunctionContainer)
    reads con
  {
    && con.Valid()
    && con.invokers.Keys == {"Add", "Void", "String", "Ptr"}
    && con.invokers["Add"] == MakeEntry(AddLambda)
    && con.invokers["Void"] == MakeEntry(VoidLambda)
    && con.invokers["String"] == MakeEntry(StringLambda)
    && con.invokers["Ptr"] == MakeEntry(PtrLambda)
  }

  /** The two typed calls: `Call<int>("Add", 1, 2)` and
      `Call<string>("String", 142857, string("test"))`. */
  method TypedCalls(con: FunctionContainer) returns (sum: Value, text: Value)
    requires HoldsLambdas(con)
    ensures sum == IntVal(3)
    ensures text == StringVal("142857test")
  {
    CallSitesFit();
    var r := con.Call(Int, "Add", [IntVal(1), IntVal(2)]);
    sum := r.value;
    var s := con.Call(StdString, "String", [IntVal(142857), StringVal("test")]);
    StringLambdaOnExample();
    text := s.value;
  }

  /** The text the container reports for "Non-exist". */
  lemma NonExistMessage()
    ensures NotRegisteredMessage("Non-exist") == "Function: \"Non-exist\" has not been registered."
  {
  }

  /** The three void calls: "Void" and "Ptr" succeed, "Non-exist" fails. */
  method VoidCalls(con: FunctionContainer) returns (v: Result<()>, p: Result<()>, missing: Result<()>)
    requires HoldsLambdas(con)
    ensures v == Ok(()) && p == Ok(())
    ensures missing == Err(InvalidArgument("Function: \"Non-exist\" has not been registered."))
  {
    CallSitesFit();
    v := con.VoidCall("Void", []);
    p := con.VoidCall("Ptr", [CharPtrVal("test"), IntVal(66)]);
    assert "Non-exist" !in con.invokers;
    missing := con.VoidCall("Non-exist", []);
    NonExistMessage();
  }

  /** The demonstration's calls: `Add(1, 2)` gives 3, `String(142857,
      "test")` gives "142857test", the two void calls succeed, and the void
      call of "Non-exist" fails with the container's message, which makes
      the program exit with `EXIT_FAILURE`. */
  method Scenario() returns (sum: Value, text: Value, v: Result<()>, p: Result<()>, missing: Result<()>, exitCode: int)
    ensures sum == IntVal(3)
    ensures text == StringVal("142857test")
    ensures v == Ok(()) && p == Ok(())
    ensures missing == Err(InvalidArgument("Function: \"Non-exist\" has not been registered."))
    ensures exitCode == EXIT_FAILURE
  {
    var con := RegisterLambdas();
    sum, text := TypedCalls(con);
    v, p, missing := VoidCalls(con);
    exitCode := if missing.Err? then EXIT_FAILURE else EXIT_SUCCESS;
  }
}
