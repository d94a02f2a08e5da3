/**
 * internal/provider/data_source.go: the `func` data source, which calls a
 * registered function by name on the `inputs` of its configuration, and the
 * validator of those inputs.
 *
 * `Read` defers when the name or the inputs are unknown, looks the
 * function up, binds the inputs to its parameters by name (an object) or by
 * position (a tuple) with exact type checks, reports the first parameter
 * left without a value, calls the function, and converts the result to the
 * declared return type only when its type differs.
 *
 * Calling the function is the parameter `execute`; what the framework's
 * `String()` renders is `render` (the conversion needs it); and Go's choice
 * of visiting order for a map's keys is `keyOrder`. Two Go panics are
 * outcomes of their own: `UnderlyingValue()` of null inputs is nil and its
 * `Type` is a nil dereference (`NilInputs`), and a tuple longer than the
 * parameter list indexes past it (`TooManyInputs`).
 */
module DataSource {
  import opened Wrappers
  import opened Collecting
  import opened Types
  import opened Values
  import Convert

  /** A `tffunc.Parameter` as `Read` sees it: `GetName()` and `GetType()`. */
  datatype Parameter = Parameter(name: string, typ: Type)

  /** A registered `runtime.Function`: what `TerraformParameters()` and `TerraformReturn()` report. */
  datatype Registered = Registered(params: Result<seq<Parameter>, string>, ret: Result<Type, string>)

  /** A `types.Dynamic`: null, unknown, or holding an underlying value. */
  datatype DynamicInput = NullInputs | UnknownInputs | Holding(value: Value)

  /** `DataSourceModel` as the configuration gives it; `id` is a string value. */
  datatype Config = Config(id: Value, inputs: DynamicInput)

  datatype ReadError =
    /** "Function not defined." on `id` */
    | FunctionNotDefined(name: string)
    /** "Could not find function parameters" and/or "Could not find function return" */
    | SignatureUnavailable(paramsError: Option<string>, returnError: Option<string>)
    /** "Named parameter not defined." */
    | UnknownParameter(key: string)
    /** "Parameter type mismatch." at a key of the inputs */
    | ParameterTypeMismatch(key: string, expected: Type, received: Type)
    /** "Parameter type mismatch." at an index of the inputs */
    | PositionTypeMismatch(index: nat, expected: Type, received: Type)
    /** "Invalid input type." */
    | InvalidInputType(received: Type)
    /** "Missing value for parameter." */
    | MissingValue(name: string, index: nat)
    /** "Function returned with error." */
    | ExecutionFailed(message: string)
    /** "Return type mismatch." on `result`: the conversion failed */
    | ReturnMismatch(expected: Type, received: Type)
    /** The nil dereference of `val.Type(ctx)` on null inputs. */
    | NilInputs
    /** The out-of-range `params[i]` for a tuple element past the parameters. */
    | TooManyInputs(index: nat)

  /**
   * What `Read` leaves in the state: an unknown result (`Deferred`), the
   * result wrapped as a dynamic value (`Stored`), or the diagnostics.
   */
  datatype ReadOutcome = Deferred | Stored(result: Value) | Failed(error: ReadError)

  /** Go's choice of visiting order for every set of map keys. */
  ghost predicate KeyOrders(keyOrder: set<string> -> seq<string>) {
    forall ks: set<string> :: IsKeyOrder(keyOrder(ks), ks)
  }

  /** A script's results are values built by the framework's constructors. */
  ghost predicate ResultsWellTyped(execute: (string, seq<Value>) -> Result<Value, string>) {
    forall name, args :: execute(name, args).Success? ==> WellTyped(execute(name, args).value)
  }

  // ---------------------------------------------------------------------
  // Binding the inputs, as functions
  // ---------------------------------------------------------------------

  /** The first parameter from `i` on named `k`, or -1: the inner loop with its `break`. */
  function PositionFrom(params: seq<Parameter>, k: string, i: nat): (pos: int)
    requires i <= |params|
    ensures pos == -1 || i <= pos < |params|
    ensures pos >= 0 ==> params[pos].name == k && forall j :: i <= j < pos ==> params[j].name != k
    ensures pos == -1 ==> forall j :: i <= j < |params| ==> params[j].name != k
    decreases |params| - i
  {
    if i == |params| then -1
    else if params[i].name == k then i
    else PositionFrom(params, k, i + 1)
  }

  function PositionOf(params: seq<Parameter>, k: string): int {
    PositionFrom(params, k, 0)
  }

  /** The checks on one key of object inputs: it names a parameter of exactly its value's type. */
  function KeyPlaced(params: seq<Parameter>, k: string, v: Value): Result<nat, ReadError> {
    var pos := PositionOf(params, k);
    if pos < 0 then Failure(UnknownParameter(k))
    else if params[pos].typ != TypeOf(v) then Failure(ParameterTypeMismatch(k, params[pos].typ, TypeOf(v)))
    else Success(pos)
  }

  function KeyChecks(params: seq<Parameter>, attrs: map<string, Value>, keys: seq<string>): (rs: seq<Result<nat, ReadError>>)
    requires forall j :: 0 <= j < |keys| ==> keys[j] in attrs
    ensures |rs| == |keys|
    ensures forall j :: 0 <= j < |keys| ==> rs[j] == KeyPlaced(params, keys[j], attrs[keys[j]])
  {
    seq(|keys|, j requires 0 <= j < |keys| => KeyPlaced(params, keys[j], attrs[keys[j]]))
  }

  /**
   * The slots after the keys in `done` are placed: a parameter holds the
   * value of the key that names it, if it is the first parameter of that name.
   */
  function NamedSlotsOf(params: seq<Parameter>, attrs: map<string, Value>, done: set<string>): (slots: seq<Option<Value>>)
    ensures |slots| == |params|
  {
    seq(|params|, i requires 0 <= i < |params| =>
      var n := params[i].name;
      if n in done && n in attrs && PositionOf(params, n) == i then Some(attrs[n]) else None)
  }

  /** The binding of object inputs, walked in the order `keys`. */
  function NamedPlaced(params: seq<Parameter>, attrs: map<string, Value>, keys: seq<string>): Result<seq<Option<Value>>, ReadError>
    requires forall j :: 0 <= j < |keys| ==> keys[j] in attrs
  {
    match Collected(KeyChecks(params, attrs, keys))
    case Failure(e) => Failure(e)
    case Success(_) => Success(NamedSlotsOf(params, attrs, attrs.Keys))
  }

  /** The checks on element `i` of tuple inputs: it is no later than the last parameter and has its exact type. */
  function ElementPlaced(params: seq<Parameter>, i: nat, v: Value): Result<nat, ReadError> {
    if i >= |params| then Failure(TooManyInputs(i))
    else if params[i].typ != TypeOf(v) then Failure(PositionTypeMismatch(i, params[i].typ, TypeOf(v)))
    else Success(i)
  }

  function ElementChecks(params: seq<Parameter>, items: seq<Value>): (rs: seq<Result<nat, ReadError>>)
    ensures |rs| == |items|
    ensures forall i :: 0 <= i < |items| ==> rs[i] == ElementPlaced(params, i, items[i])
  {
    seq(|items|, i requires 0 <= i < |items| => ElementPlaced(params, i, items[i]))
  }

  /** The slots after the first `n` elements are placed. */
  function TupleSlotsOf(params: seq<Parameter>, items: seq<Value>, n: nat): (slots: seq<Option<Value>>)
    requires n <= |items|
    ensures |slots| == |params|
  {
    seq(|params|, i requires 0 <= i < |params| => if i < n then Some(items[i]) else None)
  }

  /** The binding of tuple inputs. */
  function TuplePlaced(params: seq<Parameter>, items: seq<Value>): Result<seq<Option<Value>>, ReadError> {
    match Collected(ElementChecks(params, items))
    case Failure(e) => Failure(e)
    case Success(_) => Success(TupleSlotsOf(params, items, |items|))
  }

  /** The inputs' underlying value placed into the parameter slots, by name or by position. */
  function Placed(params: seq<Parameter>, val: Value, keyOrder: set<string> -> seq<string>): (r: Result<seq<Option<Value>>, ReadError>)
    requires KeyOrders(keyOrder)
    ensures r.Success? ==> |r.value| == |params|
  {
    var ty := TypeOf(val);
    if ty.Object? then NamedPlaced(params, Entries(val), keyOrder(Entries(val).Keys))
    else if ty.Tuple? then TuplePlaced(params, Items(val))
    else Failure(InvalidInputType(ty))
  }

  function SlotFilled(params: seq<Parameter>, slots: seq<Option<Value>>, i: nat): Result<Value, ReadError>
    requires |slots| == |params| && i < |slots|
  {
    if slots[i].Some? then Success(slots[i].value) else Failure(MissingValue(params[i].name, i))
  }

  function SlotChecks(params: seq<Parameter>, slots: seq<Option<Value>>): (rs: seq<Result<Value, ReadError>>)
    requires |slots| == |params|
    ensures |rs| == |slots|
    ensures forall i :: 0 <= i < |slots| ==> rs[i] == SlotFilled(params, slots, i)
  {
    seq(|slots|, i requires 0 <= i < |slots| => SlotFilled(params, slots, i))
  }

  /** The scan for parameters left without a value. */
  function Filled(params: seq<Parameter>, slots: seq<Option<Value>>): Result<seq<Value>, ReadError>
    requires |slots| == |params|
  {
    Collected(SlotChecks(params, slots))
  }

  /** The arguments `Read` calls the function with. */
  function Bound(params: seq<Parameter>, inputs: DynamicInput, keyOrder: set<string> -> seq<string>): Result<seq<Value>, ReadError>
    requires KeyOrders(keyOrder)
  {
    match inputs
    case Holding(val) =>
      (match Placed(params, val, keyOrder)
       case Failure(e) => Failure(e)
       case Success(slots) => Filled(params, slots))
    case _ => Failure(NilInputs)
  }

  // ---------------------------------------------------------------------
  // The call and the result, as functions
  // ---------------------------------------------------------------------

  /** The order in which `Convert` walks the result's attribute types. */
  function ResultOrder(res: Value, keyOrder: set<string> -> seq<string>): seq<string> {
    if TypeOf(res).Object? then keyOrder(TypeOf(res).attrs.Keys) else []
  }

  /** The result, converted to the declared return type only when its type differs. */
  function Coerced(res: Value, ret: Type, render: Value -> string, keyOrder: set<string> -> seq<string>): ReadOutcome
    requires WellTyped(res) && KeyOrders(keyOrder)
  {
    if TypeOf(res) == ret then Stored(NewDynamicValue(res))
    else
      ResultOrdered(res, keyOrder);
      match Convert.Converted(res, ret, render, ResultOrder(res, keyOrder))
      case Failure(_) => Failed(ReturnMismatch(ret, TypeOf(res)))
      case Success(c) => Stored(NewDynamicValue(c))
  }

  lemma ResultOrdered(res: Value, keyOrder: set<string> -> seq<string>)
    requires WellTyped(res) && KeyOrders(keyOrder)
    ensures Convert.ObjectOrder(res, ResultOrder(res, keyOrder))
  {
    if TypeOf(res).Object? {
      assert IsKeyOrder(keyOrder(TypeOf(res).attrs.Keys), TypeOf(res).attrs.Keys);
    }
  }

  function Executed(r: Result<Value, string>, ret: Type, render: Value -> string, keyOrder: set<string> -> seq<string>): ReadOutcome
    requires (r.Success? ==> WellTyped(r.value)) && KeyOrders(keyOrder)
  {
    match r
    case Failure(m) => Failed(ExecutionFailed(m))
    case Success(res) => Coerced(res, ret, render, keyOrder)
  }

  function ErrorOf<T>(r: Result<T, string>): Option<string> {
    if r.Failure? then Some(r.error) else None
  }

  /** Whether `Read` defers: the name, the inputs or their underlying value is unknown. */
  predicate Undetermined(config: Config) {
    config.id.Unknown? || config.inputs.UnknownInputs? || (config.inputs.Holding? && config.inputs.value.Unknown?)
  }

  /** A registered function, called on the bound inputs. */
  function Called(name: string, fn: Registered, inputs: DynamicInput, execute: (string, seq<Value>) -> Result<Value, string>,
                  render: Value -> string, keyOrder: set<string> -> seq<string>): ReadOutcome
    requires KeyOrders(keyOrder) && ResultsWellTyped(execute)
  {
    if fn.params.Failure? || fn.ret.Failure? then Failed(SignatureUnavailable(ErrorOf(fn.params), ErrorOf(fn.ret)))
    else
      match Bound(fn.params.value, inputs, keyOrder)
      case Failure(e) => Failed(e)
      case Success(args) => Executed(execute(name, args), fn.ret.value, render, keyOrder)
  }

  /** What `Read` does with the functions `funcs` and the configuration `config`. */
  function ReadOf(funcs: map<string, Registered>, config: Config, execute: (string, seq<Value>) -> Result<Value, string>,
                  render: Value -> string, keyOrder: set<string> -> seq<string>): ReadOutcome
    requires KeyOrders(keyOrder) && ResultsWellTyped(execute)
  {
    if Undetermined(config) then Deferred
    else
      var name := StringPayload(config.id);
      if name !in funcs then Failed(FunctionNotDefined(name))
      else Called(name, funcs[name], config.inputs, execute, render, keyOrder)
  }

  // ---------------------------------------------------------------------
  // What Read promises
  // ---------------------------------------------------------------------

  /** Unknown configuration defers the call: the result is unknown whatever the function would do. */
  lemma UnknownDefers(funcs: map<string, Registered>, config: Config, execute: (string, seq<Value>) -> Result<Value, string>,
                      render: Value -> string, keyOrder: set<string> -> seq<string>)
    requires KeyOrders(keyOrder) && ResultsWellTyped(execute)
    ensures ReadOf(funcs, config, execute, render, keyOrder) == Deferred <==> Undetermined(config)
  {
  }

  /** A known name that no function is registered under is an error on `id`, and nothing is called. */
  lemma UndefinedFunction(funcs: map<string, Registered>, config: Config, execute: (string, seq<Value>) -> Result<Value, string>,
                          render: Value -> string, keyOrder: set<string> -> seq<string>)
    requires KeyOrders(keyOrder) && ResultsWellTyped(execute)
    requires !Undetermined(config)
    ensures ReadOf(funcs, config, execute, render, keyOrder).Failed? && ReadOf(funcs, config, execute, render, keyOrder).error.FunctionNotDefined?
      <==> StringPayload(config.id) !in funcs
  {
    var name := StringPayload(config.id);
    if name in funcs {
      CalledNotUndefined(name, funcs[name], config.inputs, execute, render, keyOrder);
    }
  }

  /** A registered function is never reported as undefined. */
  lemma CalledNotUndefined(name: string, fn: Registered, inputs: DynamicInput, execute: (string, seq<Value>) -> Result<Value, string>,
                           render: Value -> string, keyOrder: set<string> -> seq<string>)
    requires KeyOrders(keyOrder) && ResultsWellTyped(execute)
    ensures var o := Called(name, fn, inputs, execute, render, keyOrder); !(o.Failed? && o.error.FunctionNotDefined?)
  {
    if fn.params.Success? && fn.ret.Success? && inputs.Holding? {
      var params := fn.params.value;
      var p := Placed(params, inputs.value, keyOrder);
      if p.Failure? {
        PlacedNotUndefined(params, inputs.value, keyOrder);
      } else if Filled(params, p.value).Failure? {
        CollectedFailure(SlotChecks(params, p.value));
      }
    }
  }

  lemma PlacedNotUndefined(params: seq<Parameter>, val: Value, keyOrder: set<string> -> seq<string>)
    requires KeyOrders(keyOrder) && Placed(params, val, keyOrder).Failure?
    ensures !Placed(params, val, keyOrder).error.FunctionNotDefined?
  {
    var ty := TypeOf(val);
    if ty.Object? {
      CollectedFailure(KeyChecks(params, Entries(val), keyOrder(Entries(val).Keys)));
    } else if ty.Tuple? {
      CollectedFailure(ElementChecks(params, Items(val)));
    }
  }

  /** The first parameter named `k`, if there is one. */
  lemma PositionOfFirst(params: seq<Parameter>, k: string)
    ensures var pos := PositionOf(params, k);
      (pos >= 0 <==> exists i :: 0 <= i < |params| && params[i].name == k)
      && (pos >= 0 ==> pos < |params| && params[pos].name == k && forall j :: 0 <= j < pos ==> params[j].name != k)
  {
  }

  /**
   * Object inputs bind exactly when every key names a parameter whose
   * type (the first parameter of that name) is the value's own type; the
   * outcome does not depend on the order the keys are walked in, and each
   * parameter then holds the value of the key naming it, if it is the
   * first parameter of that name.
   */
  lemma NamedBinding(params: seq<Parameter>, attrs: map<string, Value>, keys: seq<string>)
    requires IsKeyOrder(keys, attrs.Keys)
    ensures NamedPlaced(params, attrs, keys).Success? <==>
      forall k :: k in attrs ==> KeyPlaced(params, k, attrs[k]).Success?
    ensures forall k :: k in attrs ==>
      (KeyPlaced(params, k, attrs[k]).Success? <==>
        PositionOf(params, k) >= 0 && params[PositionOf(params, k)].typ == TypeOf(attrs[k]))
    ensures NamedPlaced(params, attrs, keys).Success? ==>
      var slots := NamedPlaced(params, attrs, keys).value;
      |slots| == |params|
      && forall i :: 0 <= i < |params| ==>
        (slots[i].Some? <==> params[i].name in attrs && PositionOf(params, params[i].name) == i)
        && (slots[i].Some? ==> slots[i].value == attrs[params[i].name] && TypeOf(slots[i].value) == params[i].typ)
  {
    var rs := KeyChecks(params, attrs, keys);
    if Collected(rs).Success? {
      forall k | k in attrs
        ensures KeyPlaced(params, k, attrs[k]).Success?
      {
        var j :| 0 <= j < |keys| && keys[j] == k;
        assert rs[j].Success?;
      }
    } else {
      CollectedFailure(rs);
    }
  }

  /** The key order matters only to which error is reported first. */
  lemma NamedBindingOrderFree(params: seq<Parameter>, attrs: map<string, Value>, keys1: seq<string>, keys2: seq<string>)
    requires IsKeyOrder(keys1, attrs.Keys) && IsKeyOrder(keys2, attrs.Keys)
    ensures NamedPlaced(params, attrs, keys1).Success? <==> NamedPlaced(params, attrs, keys2).Success?
    ensures NamedPlaced(params, attrs, keys1).Success? ==> NamedPlaced(params, attrs, keys1) == NamedPlaced(params, attrs, keys2)
  {
    NamedBinding(params, attrs, keys1);
    NamedBinding(params, attrs, keys2);
  }

  /**
   * An error on object inputs is about the first key in the walk that
   * names no parameter or holds a value of another type than its parameter's;
   * the keys before it bind.
   */
  lemma NamedFailure(params: seq<Parameter>, attrs: map<string, Value>, keys: seq<string>)
    requires forall j :: 0 <= j < |keys| ==> keys[j] in attrs
    requires NamedPlaced(params, attrs, keys).Failure?
    ensures exists j :: (0 <= j < |keys| && KeyPlaced(params, keys[j], attrs[keys[j]]).Failure?
      && (forall m :: 0 <= m < j ==> KeyPlaced(params, keys[m], attrs[keys[m]]).Success?)
      && NamedPlaced(params, attrs, keys).error == KeyPlaced(params, keys[j], attrs[keys[j]]).error)
  {
    var rs := KeyChecks(params, attrs, keys);
    CollectedFailure(rs);
    var j :| 0 <= j < |rs| && rs[j].Failure? && (forall m :: 0 <= m < j ==> rs[m].Success?) && Collected(rs).error == rs[j].error;
    forall m | 0 <= m < j
      ensures KeyPlaced(params, keys[m], attrs[keys[m]]).Success?
    {
      assert rs[m].Success?;
    }
  }

  /**
   * Tuple inputs bind exactly when the tuple is no longer than the
   * parameter list and element `i` has the type of parameter `i`; an
   * element past the last parameter is the out-of-range panic; and on
   * success parameter `i` holds element `i`, if there is one.
   */
  lemma TupleBinding(params: seq<Parameter>, items: seq<Value>)
    ensures TuplePlaced(params, items).Success? <==>
      |items| <= |params| && forall i :: 0 <= i < |items| ==> TypeOf(items[i]) == params[i].typ
    ensures TuplePlaced(params, items).Success? ==>
      var slots := TuplePlaced(params, items).value;
      |slots| == |params| && forall i :: 0 <= i < |params| ==> slots[i] == if i < |items| then Some(items[i]) else None
    ensures |items| > |params| && (forall i :: 0 <= i < |params| ==> TypeOf(items[i]) == params[i].typ) ==>
      TuplePlaced(params, items) == Failure(TooManyInputs(|params|))
  {
    var rs := ElementChecks(params, items);
    if |items| > |params| {
      assert rs[|params|].Failure?;
      if forall i :: 0 <= i < |params| ==> TypeOf(items[i]) == params[i].typ {
        CollectedReports(rs, |params|);
      }
    } else if forall i :: 0 <= i < |items| ==> TypeOf(items[i]) == params[i].typ {
      assert forall i :: 0 <= i < |items| ==> rs[i].Success?;
    } else {
      var i :| 0 <= i < |items| && TypeOf(items[i]) != params[i].typ;
      assert rs[i].Failure?;
    }
  }

  /**
   * The scan reports the first parameter left without a value, by name and
   * position; without one, the arguments are the slots' values in order.
   */
  lemma MissingValueReported(params: seq<Parameter>, slots: seq<Option<Value>>)
    requires |slots| == |params|
    ensures Filled(params, slots).Success? <==> forall i :: 0 <= i < |slots| ==> slots[i].Some?
    ensures Filled(params, slots).Success? ==>
      var args := Filled(params, slots).value;
      |args| == |params| && forall i :: 0 <= i < |args| ==> slots[i] == Some(args[i])
    ensures Filled(params, slots).Failure? ==>
      exists i :: 0 <= i < |slots| && slots[i].None? && (forall j :: 0 <= j < i ==> slots[j].Some?)
        && Filled(params, slots).error == MissingValue(params[i].name, i)
  {
    var rs := SlotChecks(params, slots);
    if Collected(rs).Failure? {
      CollectedFailure(rs);
      var i :| 0 <= i < |rs| && rs[i].Failure? && (forall j :: 0 <= j < i ==> rs[j].Success?) && Collected(rs).error == rs[i].error;
      assert slots[i].None?;
      forall j | 0 <= j < i
        ensures slots[j].Some?
      {
        assert rs[j].Success?;
      }
    } else {
      forall i | 0 <= i < |slots|
        ensures slots[i].Some?
      {
        assert rs[i].Success?;
      }
    }
  }

  /**
   * The function is called with one argument per parameter, each of
   * exactly that parameter's type: inputs are never coerced. Object inputs
   * give each parameter the value of its key; tuple inputs give parameter
   * `i` element `i`, and are then exactly as long as the parameter list.
   */
  lemma BoundExactly(params: seq<Parameter>, val: Value, keyOrder: set<string> -> seq<string>)
    requires KeyOrders(keyOrder)
    requires Bound(params, Holding(val), keyOrder).Success?
    ensures var args := Bound(params, Holding(val), keyOrder).value;
      |args| == |params|
      && (forall i :: 0 <= i < |args| ==> TypeOf(args[i]) == params[i].typ)
      && (TypeOf(val).Object? ==> forall i :: 0 <= i < |args| ==> params[i].name in Entries(val) && args[i] == Entries(val)[params[i].name])
      && (TypeOf(val).Tuple? ==> args == Items(val))
  {
    var slots := Placed(params, val, keyOrder).value;
    MissingValueReported(params, slots);
    var args := Filled(params, slots).value;
    if TypeOf(val).Object? {
      var attrs := Entries(val);
      assert IsKeyOrder(keyOrder(attrs.Keys), attrs.Keys);
      NamedBinding(params, attrs, keyOrder(attrs.Keys));
    } else {
      TupleBinding(params, Items(val));
      if |Items(val)| < |params| {
        TupleSlotsMissing(params, Items(val));
        assert false;
      }
    }
  }

  /** A tuple shorter than the parameter list leaves the next parameter without a value. */
  lemma TupleSlotsMissing(params: seq<Parameter>, items: seq<Value>)
    requires |items| < |params|
    ensures TupleSlotsOf(params, items, |items|)[|items|].None?
  {
  }

  /**
   * A result of the declared type is stored as it is; any other one goes
   * through `Convert`, a failure being an error on `result`; a stored
   * conversion is well typed and of the declared kind.
   */
  lemma ResultCoercion(res: Value, ret: Type, render: Value -> string, keyOrder: set<string> -> seq<string>)
    requires WellTyped(res) && KeyOrders(keyOrder)
    ensures TypeOf(res) == ret ==> Coerced(res, ret, render, keyOrder) == Stored(DynamicV(res))
    ensures Coerced(res, ret, render, keyOrder).Failed? <==>
      TypeOf(res) != ret && (ResultOrdered(res, keyOrder); Convert.Converted(res, ret, render, ResultOrder(res, keyOrder)).Failure?)
    ensures Coerced(res, ret, render, keyOrder).Failed? ==> Coerced(res, ret, render, keyOrder).error == ReturnMismatch(ret, TypeOf(res))
    ensures Coerced(res, ret, render, keyOrder).Stored? ==>
      var r := Coerced(res, ret, render, keyOrder).result;
      r.DynamicV? && WellTyped(r.inner) && KindOf(TypeOf(r.inner)) == KindOf(ret)
  {
    ResultOrdered(res, keyOrder);
    if TypeOf(res) != ret {
      Convert.ConvertedWellTyped(res, ret, render, ResultOrder(res, keyOrder));
    }
  }

  // ---------------------------------------------------------------------
  // InputsValidator
  // ---------------------------------------------------------------------

  /** "Invalid input type." */
  datatype ValidationError = UnsupportedInputs(received: Type)

  /** `InputsValidator.ValidateDynamic`: the diagnostic it adds, if any. */
  function ValidateDynamic(input: DynamicInput): Option<ValidationError> {
    match input
    case NullInputs => None
    case UnknownInputs => None
    case Holding(v) =>
      if v.Null? || v.Unknown? then None
      else
        var ty := TypeOf(v);
        var tag := PlainTypeString(ty);
        if tag == "basetypes.ObjectType" || tag == "basetypes.TupleType" then None
        else Some(UnsupportedInputs(ty))
  }

  /** The validator accepts null, unknown, object and tuple inputs and rejects everything else. */
  lemma ValidateDynamicAccepts(input: DynamicInput)
    ensures ValidateDynamic(input).None? <==>
      input.NullInputs? || input.UnknownInputs? || input.value.Null? || input.value.Unknown?
      || TypeOf(input.value).Object? || TypeOf(input.value).Tuple?
    ensures ValidateDynamic(input).Some? ==> ValidateDynamic(input).value == UnsupportedInputs(TypeOf(input.value))
  {
    if input.Holding? {
      PlainTypeStringTags(TypeOf(input.value));
    }
  }

  /**
   * On known inputs that are not null, `Read`'s own "Invalid input type."
   * check rejects exactly what the validator rejects.
   */
  lemma ValidatorAgreesWithRead(params: seq<Parameter>, val: Value, keyOrder: set<string> -> seq<string>)
    requires KeyOrders(keyOrder)
    requires !val.Null? && !val.Unknown?
    ensures Placed(params, val, keyOrder) == Failure(InvalidInputType(TypeOf(val))) <==> ValidateDynamic(Holding(val)).Some?
  {
    ValidateDynamicAccepts(Holding(val));
    var ty := TypeOf(val);
    if ty.Object? {
      var attrs := Entries(val);
      assert IsKeyOrder(keyOrder(attrs.Keys), attrs.Keys);
      NamedNeverInvalid(params, attrs, keyOrder(attrs.Keys));
    } else if ty.Tuple? {
      TupleNeverInvalid(params, Items(val));
    }
  }

  lemma NamedNeverInvalid(params: seq<Parameter>, attrs: map<string, Value>, keys: seq<string>)
    requires forall j :: 0 <= j < |keys| ==> keys[j] in attrs
    ensures NamedPlaced(params, attrs, keys).Failure? ==> !NamedPlaced(params, attrs, keys).error.InvalidInputType?
  {
    if NamedPlaced(params, attrs, keys).Failure? {
      NamedFailure(params, attrs, keys);
    }
  }

  lemma TupleNeverInvalid(params: seq<Parameter>, items: seq<Value>)
    ensures TuplePlaced(params, items).Failure? ==> !TuplePlaced(params, items).error.InvalidInputType?
  {
    var rs := ElementChecks(params, items);
    if Collected(rs).Failure? {
      CollectedFailure(rs);
    }
  }

  /**
   * Null inputs pass the validator, which expects them for functions
   * without parameters, yet `Read` dereferences their nil underlying value
   * once the function is found, whatever its parameters.
   */
  lemma NullInputsReachNil(funcs: map<string, Registered>, config: Config, execute: (string, seq<Value>) -> Result<Value, string>,
                           render: Value -> string, keyOrder: set<string> -> seq<string>)
    requires KeyOrders(keyOrder) && ResultsWellTyped(execute)
    requires config.inputs.NullInputs? && !config.id.Unknown?
    requires StringPayload(config.id) in funcs
    requires funcs[StringPayload(config.id)].params.Success? && funcs[StringPayload(config.id)].ret.Success?
    ensures ValidateDynamic(config.inputs).None?
    ensures ReadOf(funcs, config, execute, render, keyOrder) == Failed(NilInputs)
  {
  }

  // ---------------------------------------------------------------------
  // DataSource
  // ---------------------------------------------------------------------

  /** What `Configure` receives: nothing, the registered functions, or anything else. */
  datatype ProviderData = NoProviderData | Functions(funcs: map<string, Registered>) | OtherProviderData

  /** "Unexpected Data Source Configure Type" */
  datatype ConfigureError = UnexpectedConfigureType

  class DataSource {
    var funcs: map<string, Registered>

    /** `NewDataSource()`: no functions until `Configure`. */
    constructor ()
      ensures funcs == map[]
    {
      funcs := map[];
    }

    /** `Configure`: nothing is a no-op, a function map replaces `funcs`, anything else is an error. */
    method Configure(data: ProviderData) returns (err: Option<ConfigureError>)
      modifies this
      ensures data.Functions? ==> funcs == data.funcs && err.None?
      ensures data.NoProviderData? ==> funcs == old(funcs) && err.None?
      ensures data.OtherProviderData? ==> funcs == old(funcs) && err == Some(UnexpectedConfigureType)
    {
      match data
      case NoProviderData => return None;
      case OtherProviderData => return Some(UnexpectedConfigureType);
      case Functions(m) =>
        funcs := m;
        return None;
    }

    /** `Read`. */
    method Read(config: Config, execute: (string, seq<Value>) -> Result<Value, string>,
                render: Value -> string, keyOrder: set<string> -> seq<string>) returns (outcome: ReadOutcome)
      requires KeyOrders(keyOrder) && ResultsWellTyped(execute)
      ensures outcome == ReadOf(funcs, config, execute, render, keyOrder)
    {
      if config.id.Unknown? || config.inputs.UnknownInputs? || (config.inputs.Holding? && config.inputs.value.Unknown?) {
        return Deferred;
      }
      var fnName := StringPayload(config.id);
      if fnName !in funcs {
        return Failed(FunctionNotDefined(fnName));
      }
      var fn := funcs[fnName];
      if fn.params.Failure? || fn.ret.Failure? {
        return Failed(SignatureUnavailable(ErrorOf(fn.params), ErrorOf(fn.ret)));
      }
      var args := BindInputs(fn.params.value, config.inputs, keyOrder);
      if args.Failure? {
        return Failed(args.error);
      }
      var res := execute(fnName, args.value);
      if res.Failure? {
        return Failed(ExecutionFailed(res.error));
      }
      outcome := CoerceResult(res.value, fn.ret.value, render, keyOrder);
    }
  }

  /** Filling `args` from the inputs, then the scan for nil slots. */
  method BindInputs(params: seq<Parameter>, inputs: DynamicInput, keyOrder: set<string> -> seq<string>) returns (r: Result<seq<Value>, ReadError>)
    requires KeyOrders(keyOrder)
    ensures r == Bound(params, inputs, keyOrder)
  {
    if !inputs.Holding? {
      return Failure(NilInputs);
    }
    var val := inputs.value;
    var valTy := TypeOf(val);
    var args := new Option<Value>[|params|](_ => None);
    if valTy.Object? {
      var keys := keyOrder(Entries(val).Keys);
      assert IsKeyOrder(keys, Entries(val).Keys);
      var err := PlaceNamed(params, Entries(val), keys, args);
      if err.Some? {
        return Failure(err.value);
      }
    } else if valTy.Tuple? {
      var err := PlaceElements(params, Items(val), args);
      if err.Some? {
        return Failure(err.value);
      }
    } else {
      return Failure(InvalidInputType(valTy));
    }
    r := CheckFilled(params, args);
  }

  /** The loop over an object's attributes, each placed at the first parameter of its name. */
  method PlaceNamed(params: seq<Parameter>, attrs: map<string, Value>, keys: seq<string>, args: array<Option<Value>>)
      returns (err: Option<ReadError>)
    requires IsKeyOrder(keys, attrs.Keys)
    requires args.Length == |params| && forall i :: 0 <= i < args.Length ==> args[i].None?
    modifies args
    ensures NamedPlaced(params, attrs, keys).Failure? ==> err == Some(NamedPlaced(params, attrs, keys).error)
    ensures NamedPlaced(params, attrs, keys).Success? ==> err.None? && args[..] == NamedPlaced(params, attrs, keys).value
  {
    ghost var rs := KeyChecks(params, attrs, keys);
    ghost var done: set<string> := {};
    assert args[..] == NamedSlotsOf(params, attrs, done);
    for j := 0 to |keys|
      invariant forall m :: 0 <= m < j ==> rs[m].Success? && keys[m] in done
      invariant done <= attrs.Keys
      invariant args[..] == NamedSlotsOf(params, attrs, done)
    {
      var k := keys[j];
      var v := attrs[k];
      var pos := FindParameter(params, k);
      if pos == -1 {
        CollectedReports(rs, j);
        return Some(UnknownParameter(k));
      }
      if params[pos].typ != TypeOf(v) {
        CollectedReports(rs, j);
        return Some(ParameterTypeMismatch(k, params[pos].typ, TypeOf(v)));
      }
      NamedSlotsStep(params, attrs, done, k);
      args[pos] := Some(v);
      done := done + {k};
    }
    assert done == attrs.Keys;
    return None;
  }

  lemma NamedSlotsStep(params: seq<Parameter>, attrs: map<string, Value>, done: set<string>, k: string)
    requires k in attrs && PositionOf(params, k) >= 0
    ensures NamedSlotsOf(params, attrs, done)[PositionOf(params, k) := Some(attrs[k])] == NamedSlotsOf(params, attrs, done + {k})
  {
  }

  /** `for i, param := range params { if param.GetName() == k { pos = i; break } }` */
  method FindParameter(params: seq<Parameter>, k: string) returns (pos: int)
    ensures pos == PositionOf(params, k)
  {
    pos := -1;
    for i := 0 to |params|
      invariant forall j :: 0 <= j < i ==> params[j].name != k
    {
      if params[i].name == k {
        pos := i;
        PositionFromSkips(params, k, 0, i);
        return;
      }
    }
    PositionFromSkips(params, k, 0, |params|);
  }

  lemma {:induction false} PositionFromSkips(params: seq<Parameter>, k: string, i: nat, j: nat)
    requires i <= j <= |params| && forall m :: i <= m < j ==> params[m].name != k
    ensures PositionFrom(params, k, i) == PositionFrom(params, k, j)
    decreases j - i
  {
    if i < j {
      PositionFromSkips(params, k, i + 1, j);
    }
  }

  /** The loop over a tuple's elements, element `i` placed at parameter `i`. */
  method PlaceElements(params: seq<Parameter>, items: seq<Value>, args: array<Option<Value>>) returns (err: Option<ReadError>)
    requires args.Length == |params| && forall i :: 0 <= i < args.Length ==> args[i].None?
    modifies args
    ensures TuplePlaced(params, items).Failure? ==> err == Some(TuplePlaced(params, items).error)
    ensures TuplePlaced(params, items).Success? ==> err.None? && args[..] == TuplePlaced(params, items).value
  {
    ghost var rs := ElementChecks(params, items);
    assert args[..] == TupleSlotsOf(params, items, 0);
    for i := 0 to |items|
      invariant forall m :: 0 <= m < i ==> rs[m].Success?
      invariant args[..] == TupleSlotsOf(params, items, i)
    {
      var v := items[i];
      if i >= args.Length {
        CollectedReports(rs, i);
        return Some(TooManyInputs(i));
      }
      if params[i].typ != TypeOf(v) {
        CollectedReports(rs, i);
        return Some(PositionTypeMismatch(i, params[i].typ, TypeOf(v)));
      }
      args[i] := Some(v);
    }
    return None;
  }

  /** `for i := range args { if args[i] == nil { … } }` */
  method CheckFilled(params: seq<Parameter>, args: array<Option<Value>>) returns (r: Result<seq<Value>, ReadError>)
    requires args.Length == |params|
    ensures r == Filled(params, args[..])
  {
    ghost var rs := SlotChecks(params, args[..]);
    var values: seq<Value> := [];
    for i := 0 to args.Length
      invariant |values| == i
      invariant forall j :: 0 <= j < i ==> rs[j].Success? && values[j] == rs[j].value
    {
      if args[i].None? {
        CollectedReports(rs, i);
        return Failure(MissingValue(params[i].name, i));
      }
      values := values + [args[i].value];
    }
    assert values == Collected(rs).value;
    return Success(values);
  }

  /** The comparison with the declared return type and the conversion. */
  method CoerceResult(res: Value, ret: Type, render: Value -> string, keyOrder: set<string> -> seq<string>) returns (outcome: ReadOutcome)
    requires WellTyped(res) && KeyOrders(keyOrder)
    ensures outcome == Coerced(res, ret, render, keyOrder)
  {
    var resVal := res;
    if ret != TypeOf(res) {
      ResultOrdered(res, keyOrder);
      var order := ResultOrder(res, keyOrder);
      var converted := Convert.ConvertValue(res, ret, render, order);
      if converted.Failure? {
        return Failed(ReturnMismatch(ret, TypeOf(res)));
      }
      resVal := converted.value;
    }
    return Stored(NewDynamicValue(resVal));
  }
}
