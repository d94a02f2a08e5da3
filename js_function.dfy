/**
 * internal/javascript/function.go: building a provider function from a
 * script function's name, documentation and argument list, and calling it.
 *
 * `NewJavaScriptFunction` checks the input in a fixed order: the input
 * itself, the function name, then each argument in turn (its name, its type
 * string through `getTerraformType`, the parameter through
 * `AsTerraformParameter`), then the return type through `getTerraformType`
 * and `AsTerraformReturn`. The first failure is the error. The script
 * engine's callable is not part of the model; calling a built function is
 * modelled by `CallBound`, with the script and the conversion of its result
 * back to Terraform as parameters.
 */
module JsFunction {
  import opened Wrappers
  import opened Collecting
  import opened Types
  import opened Values
  import opened JsTypes
  import opened TfArg
  import FromTf

  /** `javaScriptArgumentInput`. */
  datatype ArgumentInput = ArgumentInput(name: string, description: string, jsType: string)

  /** `javascriptFunctionInput`, without the callable. */
  datatype FunctionInput = FunctionInput(
    name: string,
    summary: string,
    description: string,
    args: seq<ArgumentInput>,
    retJsType: string)

  /** `JavaScriptArgument`. */
  datatype Argument = Argument(name: string, description: string, param: Parameter)

  /** `JavaScriptFunction`, without the callable. */
  datatype Function = Function(
    name: string,
    summary: string,
    description: string,
    args: seq<Argument>,
    ret: Return)

  datatype FunctionError =
    /** "input cannot be nil" */
    | NilInput
    /** "a function without a name cannot exist" */
    | NoName
    /** "argument %d of function %s does not have a name" */
    | ArgumentNoName(index: nat)
    /** "argument type %d of function %s is not Terraform-compatible" */
    | ArgumentType(index: nat, typeError: TypeError)
    /** "argument %d of function %s cannot be converted to Terraform param" */
    | ArgumentParameter(index: nat, argError: ArgError)
    /** "return type of function %s is not Terraform-compatible" */
    | ReturnType(typeError: TypeError)
    /** "return of function %s cannot be converted to Terraform" */
    | ReturnParameter(argError: ArgError)

  // ---------------------------------------------------------------------
  // NewJavaScriptFunction
  // ---------------------------------------------------------------------

  /** The options the argument loop passes: the description doubles as the markdown description. */
  function OptionsOf(a: ArgumentInput): Option<ParameterOptions> {
    Some(ParameterOptions(a.description, a.description))
  }

  /**
   * The parameter record `AsTerraformParameter` builds for a non-tuple type
   * with the argument's options (its contract fixes every field).
   */
  function ParameterFor(t: Type, a: ArgumentInput): Parameter
    requires !t.Tuple?
  {
    Parameter(ShapeOf(t), a.name, a.description, a.description, true, false)
  }

  /** One pass of the argument loop, for argument `i`. */
  function ArgumentBuilt(i: nat, a: ArgumentInput): Result<Argument, FunctionError> {
    if a.name == "" then Failure(ArgumentNoName(i))
    else
      match ParseType(a.jsType)
      case Failure(e) => Failure(ArgumentType(i, e))
      case Success(t) =>
        if t.Tuple? then Failure(ArgumentParameter(i, TupleParameter))
        else Success(Argument(a.name, a.description, ParameterFor(t, a)))
  }

  function ArgumentResults(args: seq<ArgumentInput>): (rs: seq<Result<Argument, FunctionError>>)
    ensures |rs| == |args|
    ensures forall i :: 0 <= i < |args| ==> rs[i] == ArgumentBuilt(i, args[i])
  {
    seq(|args|, i requires 0 <= i < |args| => ArgumentBuilt(i, args[i]))
  }

  /** The return checks, once every argument has been built. */
  function ReturnBuilt(fin: FunctionInput, args: seq<Argument>): Result<Function, FunctionError> {
    match ParseType(fin.retJsType)
    case Failure(e) => Failure(ReturnType(e))
    case Success(t) =>
      if t.Tuple? then Failure(ReturnParameter(TupleReturn))
      else Success(Function(fin.name, fin.summary, fin.description, args, Return(ShapeOf(t))))
  }

  /** `NewJavaScriptFunction(fin, runtime)`; `None` is a nil input. */
  function Built(fin: Option<FunctionInput>): Result<Function, FunctionError> {
    if fin.None? then Failure(NilInput)
    else if fin.value.name == "" then Failure(NoName)
    else
      match Collected(ArgumentResults(fin.value.args))
      case Failure(e) => Failure(e)
      case Success(args) => ReturnBuilt(fin.value, args)
  }

  /** An argument the loop accepts: named, with a type string that parses to a non-tuple type. */
  predicate ArgumentAccepted(a: ArgumentInput) {
    a.name != "" && ParseType(a.jsType).Success? && !ParseType(a.jsType).value.Tuple?
  }

  /** A return type string that parses to a non-tuple type. */
  predicate ReturnAccepted(retJsType: string) {
    ParseType(retJsType).Success? && !ParseType(retJsType).value.Tuple?
  }

  lemma ArgumentBuiltIff(i: nat, a: ArgumentInput)
    ensures ArgumentBuilt(i, a).Success? <==> ArgumentAccepted(a)
  {
  }

  lemma ReturnBuiltIff(fin: FunctionInput, args: seq<Argument>)
    ensures ReturnBuilt(fin, args).Success? <==> ReturnAccepted(fin.retJsType)
  {
  }

  /** A function is built exactly when the input is there, named, every argument is accepted and so is the return type. */
  lemma BuiltIff(fin: Option<FunctionInput>)
    ensures Built(fin).Success? <==>
      fin.Some? && fin.value.name != ""
      && (forall i :: 0 <= i < |fin.value.args| ==> ArgumentAccepted(fin.value.args[i]))
      && ReturnAccepted(fin.value.retJsType)
  {
    if fin.Some? && fin.value.name != "" {
      var rs := ArgumentResults(fin.value.args);
      forall i | 0 <= i < |fin.value.args|
        ensures rs[i].Success? <==> ArgumentAccepted(fin.value.args[i])
      {
        ArgumentBuiltIff(i, fin.value.args[i]);
      }
      if Collected(rs).Success? {
        ReturnBuiltIff(fin.value, Collected(rs).value);
      }
    }
  }

  /**
   * An error that names an argument index names the first argument that is
   * not accepted: every argument before it is.
   */
  lemma FailureNamesFirstBadArgument(fin: FunctionInput)
    requires fin.name != ""
    requires Built(Some(fin)).Failure?
    ensures var e := Built(Some(fin)).error;
      (e.ArgumentNoName? || e.ArgumentType? || e.ArgumentParameter?) ==>
        e.index < |fin.args| && !ArgumentAccepted(fin.args[e.index])
        && (forall j :: 0 <= j < e.index ==> ArgumentAccepted(fin.args[j]))
  {
    var rs := ArgumentResults(fin.args);
    if Collected(rs).Failure? {
      var k := FirstFailure(rs, 0);
      assert rs[k] == ArgumentBuilt(k, fin.args[k]);
      assert Built(Some(fin)).error.index == k;
      ArgumentBuiltIff(k, fin.args[k]);
      forall j | 0 <= j < k
        ensures ArgumentAccepted(fin.args[j])
      {
        ArgumentBuiltIff(j, fin.args[j]);
      }
    }
  }

  /** The argument with an empty name is reported by its index when everything before it is accepted. */
  lemma UnnamedArgumentReported(fin: FunctionInput, i: nat)
    requires fin.name != "" && i < |fin.args| && fin.args[i].name == ""
    requires forall j :: 0 <= j < i ==> ArgumentAccepted(fin.args[j])
    ensures Built(Some(fin)) == Failure(ArgumentNoName(i))
  {
    var rs := ArgumentResults(fin.args);
    forall j | 0 <= j < i
      ensures rs[j].Success?
    {
      ArgumentBuiltIff(j, fin.args[j]);
    }
    CollectedReports(rs, i);
  }

  /** With every argument accepted, a return type that parses to a tuple is refused. */
  lemma TupleReturnRejected(fin: FunctionInput)
    requires fin.name != "" && forall i :: 0 <= i < |fin.args| ==> ArgumentAccepted(fin.args[i])
    requires ParseType(fin.retJsType).Success? && ParseType(fin.retJsType).value.Tuple?
    ensures Built(Some(fin)) == Failure(ReturnParameter(TupleReturn))
  {
    var rs := ArgumentResults(fin.args);
    forall j | 0 <= j < |fin.args|
      ensures rs[j].Success?
    {
      ArgumentBuiltIff(j, fin.args[j]);
    }
  }

  /**
   * A built function keeps the input's name, summary and description, and
   * has one argument per input argument, in order, each with the input's
   * name and description and the parameter `AsTerraformParameter` makes of
   * its type; the return is the record its return type calls for.
   */
  lemma BuiltKeepsArguments(fin: FunctionInput)
    requires Built(Some(fin)).Success?
    ensures var f := Built(Some(fin)).value;
      f.name == fin.name && f.summary == fin.summary && f.description == fin.description
      && |f.args| == |fin.args|
      && f.ret.shape == ShapeOf(ParseType(fin.retJsType).value)
    ensures var f := Built(Some(fin)).value;
      forall i :: 0 <= i < |fin.args| ==>
        ArgumentAccepted(fin.args[i])
        && f.args[i].name == fin.args[i].name && f.args[i].description == fin.args[i].description
        && f.args[i].param.shape == ShapeOf(ParseType(fin.args[i].jsType).value)
        && Success(f.args[i].param) == AsTerraformParameter(ParseType(fin.args[i].jsType).value, fin.args[i].name, OptionsOf(fin.args[i]))
  {
    BuiltIff(Some(fin));
    var rs := ArgumentResults(fin.args);
    forall i | 0 <= i < |fin.args|
      ensures Success(Built(Some(fin)).value.args[i].param)
        == AsTerraformParameter(ParseType(fin.args[i].jsType).value, fin.args[i].name, OptionsOf(fin.args[i]))
    {
      assert rs[i] == ArgumentBuilt(i, fin.args[i]);
      ParameterForIsAsTerraformParameter(ParseType(fin.args[i].jsType).value, fin.args[i]);
    }
  }

  /** Argument `i` of a built function, from input argument `i`. */
  lemma BuiltArgument(fin: FunctionInput, i: nat)
    requires Built(Some(fin)).Success? && i < |fin.args|
    ensures i < |Built(Some(fin)).value.args|
    ensures var a := Built(Some(fin)).value.args[i];
      a.name == fin.args[i].name && a.description == fin.args[i].description
      && ParseType(fin.args[i].jsType).Success? && a.param.shape == ShapeOf(ParseType(fin.args[i].jsType).value)
  {
    BuiltKeepsArguments(fin);
  }

  /** `ParameterFor` is the record `AsTerraformParameter` returns for the argument's options. */
  lemma ParameterForIsAsTerraformParameter(t: Type, a: ArgumentInput)
    requires !t.Tuple?
    ensures AsTerraformParameter(t, a.name, OptionsOf(a)) == Success(ParameterFor(t, a))
  {
  }

  /** One pass of the argument loop of `NewJavaScriptFunction`. */
  method BuildArgument(i: nat, a: ArgumentInput) returns (r: Result<Argument, FunctionError>)
    ensures r == ArgumentBuilt(i, a)
  {
    if a.name == "" {
      return Failure(ArgumentNoName(i));
    }
    var taty := GetTerraformType(a.jsType);
    if taty.Failure? {
      return Failure(ArgumentType(i, taty.error));
    }
    var p := AsTerraformParameter(taty.value, a.name, OptionsOf(a));
    if p.Failure? {
      return Failure(ArgumentParameter(i, p.error));
    }
    return Success(Argument(a.name, a.description, p.value));
  }

  /** The return checks of `NewJavaScriptFunction`. */
  method BuildReturn(fin: FunctionInput, args: seq<Argument>) returns (r: Result<Function, FunctionError>)
    ensures r == ReturnBuilt(fin, args)
  {
    var trty := GetTerraformType(fin.retJsType);
    if trty.Failure? {
      return Failure(ReturnType(trty.error));
    }
    var ret := AsTerraformReturn(trty.value);
    if ret.Failure? {
      return Failure(ReturnParameter(ret.error));
    }
    return Success(Function(fin.name, fin.summary, fin.description, args, ret.value));
  }

  /** A placeholder for the slots of `make([]JavaScriptArgument, n)` not yet written. */
  const ZeroArgument := Argument("", "", Parameter(DynamicShape, "", "", "", false, false))

  /** `NewJavaScriptFunction`: the argument loop fills `args` by index. */
  method NewJavaScriptFunction(fin: Option<FunctionInput>) returns (r: Result<Function, FunctionError>)
    ensures r == Built(fin)
  {
    if fin.None? {
      return Failure(NilInput);
    }
    var input := fin.value;
    if input.name == "" {
      return Failure(NoName);
    }
    var args := BuildArguments(input.args);
    if args.Failure? {
      return Failure(args.error);
    }
    r := BuildReturn(input, args.value);
  }

  /** The argument loop of `NewJavaScriptFunction`, filling `args` by index. */
  method BuildArguments(inputs: seq<ArgumentInput>) returns (r: Result<seq<Argument>, FunctionError>)
    ensures r == Collected(ArgumentResults(inputs))
  {
    ghost var rs := ArgumentResults(inputs);
    var args := new Argument[|inputs|](_ => ZeroArgument);
    for i := 0 to |inputs|
      invariant forall j :: 0 <= j < i ==> rs[j].Success? && args[j] == rs[j].value
    {
      var a := BuildArgument(i, inputs[i]);
      if a.Failure? {
        CollectedReports(rs, i);
        return Failure(a.error);
      }
      args[i] := a.value;
    }
    assert args[..] == Collected(rs).value;
    return Success(args[..]);
  }

  // ---------------------------------------------------------------------
  // AllocateParameters
  // ---------------------------------------------------------------------

  /** `GetType()` of the parameter record of each kind. */
  function ShapeType(s: Shape): Type {
    match s
    case BoolShape => Bool
    case NumberShape => Number
    case StringShape => String
    case ListShape(e) => List(e)
    case SetShape(e) => Set(e)
    case ObjectShape(atys) => Object(atys)
    case MapShape(e) => Map(e)
    case DynamicShape => Dynamic
  }

  /** A record gives back the type it was made for. */
  lemma ShapeTypeOfShapeOf(t: Type)
    requires !t.Tuple?
    ensures ShapeType(ShapeOf(t)) == t
  {
  }

  /**
   * `AllocateParameters`: one slot per argument, each the zero value of the
   * parameter type, which in the framework is a null value of that type.
   */
  method AllocateParameters(f: Function) returns (data: seq<Value>)
    ensures |data| == |f.args|
    ensures forall i :: 0 <= i < |f.args| ==> data[i] == Null(ShapeType(f.args[i].param.shape))
  {
    var slots := new Value[|f.args|](_ => Null(Dynamic));
    for i := 0 to |f.args|
      invariant forall j :: 0 <= j < i ==> slots[j] == Null(ShapeType(f.args[j].param.shape))
    {
      slots[i] := Null(ShapeType(f.args[i].param.shape));
    }
    data := slots[..];
  }

  /** The slots of a built function have the types its arguments' type strings name. */
  lemma SlotsHaveDeclaredTypes(fin: FunctionInput, i: nat)
    requires Built(Some(fin)).Success? && i < |fin.args|
    ensures i < |Built(Some(fin)).value.args|
    ensures TypeOf(Null(ShapeType(Built(Some(fin)).value.args[i].param.shape))) == ParseType(fin.args[i].jsType).value
  {
    BuiltKeepsArguments(fin);
    ShapeTypeOfShapeOf(ParseType(fin.args[i].jsType).value);
  }

  // ---------------------------------------------------------------------
  // bindCallableToRuntime
  // ---------------------------------------------------------------------

  datatype CallError =
    /** "argument %d cannot be converted to Terraform" */
    | ArgumentNotConverted(index: nat, cause: FromTf.FromTfError)
    /** "func exec" */
    | ExecutionFailed(message: string)
    /** "return cannot be converted to Terraform" */
    | ReturnNotConverted(message: string)

  /** The conversion of argument `i`, with its index on failure. */
  function BoundArgument(i: nat, v: Value, order: map<string, Value> -> seq<string>): Result<FromTf.JsValue, CallError>
    requires FromTf.MapOrders(order)
  {
    match FromTf.Converted(v, order)
    case Failure(e) => Failure(ArgumentNotConverted(i, e))
    case Success(js) => Success(js)
  }

  function BindResults(args: seq<Value>, order: map<string, Value> -> seq<string>): (rs: seq<Result<FromTf.JsValue, CallError>>)
    requires FromTf.MapOrders(order)
    ensures |rs| == |args|
    ensures forall i :: 0 <= i < |args| ==> rs[i] == BoundArgument(i, args[i], order)
  {
    seq(|args|, i requires 0 <= i < |args| => BoundArgument(i, args[i], order))
  }

  /**
   * The bound callable: the arguments converted in order, then the script,
   * then the conversion of its result (`ToTfValue`, a parameter here).
   */
  function Called(
    args: seq<Value>,
    order: map<string, Value> -> seq<string>,
    script: seq<FromTf.JsValue> -> Result<FromTf.JsValue, string>,
    toTf: FromTf.JsValue -> Result<Value, string>): Result<Value, CallError>
    requires FromTf.MapOrders(order)
  {
    match Collected(BindResults(args, order))
    case Failure(e) => Failure(e)
    case Success(js) => Finished(script(js), toTf)
  }

  /** What happens after the script has run. */
  function Finished(res: Result<FromTf.JsValue, string>, toTf: FromTf.JsValue -> Result<Value, string>): Result<Value, CallError> {
    match res
    case Failure(m) => Failure(ExecutionFailed(m))
    case Success(js) =>
      match toTf(js)
      case Failure(m) => Failure(ReturnNotConverted(m))
      case Success(v) => Success(v)
  }

  /** Every argument converted, in order. */
  function ConvertedAll(args: seq<Value>, order: map<string, Value> -> seq<string>): seq<FromTf.JsValue>
    requires FromTf.MapOrders(order)
    requires forall i :: 0 <= i < |args| ==> FromTf.Converted(args[i], order).Success?
  {
    seq(|args|, i requires 0 <= i < |args| => FromTf.Converted(args[i], order).value)
  }

  /**
   * The script receives every argument, converted, in order; when an
   * argument fails to convert, the first such argument is reported and the
   * script is not consulted at all.
   */
  lemma BindingOrder(
    args: seq<Value>,
    order: map<string, Value> -> seq<string>,
    script: seq<FromTf.JsValue> -> Result<FromTf.JsValue, string>,
    script': seq<FromTf.JsValue> -> Result<FromTf.JsValue, string>,
    toTf: FromTf.JsValue -> Result<Value, string>)
    requires FromTf.MapOrders(order)
    ensures (forall i :: 0 <= i < |args| ==> FromTf.Converted(args[i], order).Success?) ==>
      Called(args, order, script, toTf) == Finished(script(ConvertedAll(args, order)), toTf)
    ensures (exists i :: 0 <= i < |args| && FromTf.Converted(args[i], order).Failure?) ==>
      Called(args, order, script, toTf) == Called(args, order, script', toTf)
      && Called(args, order, script, toTf).Failure? && Called(args, order, script, toTf).error.ArgumentNotConverted?
  {
    var rs := BindResults(args, order);
    if Collected(rs).Success? {
      assert Collected(rs).value == ConvertedAll(args, order);
    }
  }

  /** The failing argument reported is the first one that does not convert. */
  lemma BindingReportsFirstFailure(
    args: seq<Value>,
    order: map<string, Value> -> seq<string>,
    script: seq<FromTf.JsValue> -> Result<FromTf.JsValue, string>,
    toTf: FromTf.JsValue -> Result<Value, string>)
    requires FromTf.MapOrders(order)
    requires Called(args, order, script, toTf).Failure? && Called(args, order, script, toTf).error.ArgumentNotConverted?
    ensures var i := Called(args, order, script, toTf).error.index;
      i < |args| && FromTf.Converted(args[i], order).Failure?
      && Called(args, order, script, toTf).error.cause == FromTf.Converted(args[i], order).error
      && forall j :: 0 <= j < i ==> FromTf.Converted(args[j], order).Success?
  {
    var rs := BindResults(args, order);
    if Collected(rs).Failure? {
      var k := FirstFailure(rs, 0);
      assert rs[k] == BoundArgument(k, args[k], order);
      forall j | 0 <= j < k
        ensures FromTf.Converted(args[j], order).Success?
      {
        assert rs[j] == BoundArgument(j, args[j], order);
      }
    }
  }

  /** The argument loop of the bound callable, filling `gojaArgs` by index. */
  method BindArguments(args: seq<Value>, order: map<string, Value> -> seq<string>) returns (r: Result<seq<FromTf.JsValue>, CallError>)
    requires FromTf.MapOrders(order)
    ensures r == Collected(BindResults(args, order))
  {
    ghost var rs := BindResults(args, order);
    var gojaArgs := new FromTf.JsValue[|args|](_ => FromTf.JsNull);
    for i := 0 to |args|
      invariant forall j :: 0 <= j < i ==> rs[j].Success? && gojaArgs[j] == rs[j].value
    {
      var res := FromTf.FromTfValue(args[i], order);
      if res.Failure? {
        CollectedReports(rs, i);
        return Failure(ArgumentNotConverted(i, res.error));
      }
      gojaArgs[i] := res.value;
    }
    assert gojaArgs[..] == Collected(rs).value;
    return Success(gojaArgs[..]);
  }

  /** The callable `bindCallableToRuntime` returns, applied to `args`. */
  method CallBound(
    args: seq<Value>,
    order: map<string, Value> -> seq<string>,
    script: seq<FromTf.JsValue> -> Result<FromTf.JsValue, string>,
    toTf: FromTf.JsValue -> Result<Value, string>) returns (r: Result<Value, CallError>)
    requires FromTf.MapOrders(order)
    ensures r == Called(args, order, script, toTf)
  {
    var gojaArgs := BindArguments(args, order);
    if gojaArgs.Failure? {
      return Failure(gojaArgs.error);
    }
    var res := script(gojaArgs.value);
    if res.Failure? {
      return Failure(ExecutionFailed(res.error));
    }
    var tfValue := toTf(res.value);
    if tfValue.Failure? {
      return Failure(ReturnNotConverted(tfValue.error));
    }
    return Success(tfValue.value);
  }
}
