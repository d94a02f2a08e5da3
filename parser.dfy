/**
 * internal/functions/parser.go: the older function library, where a script
 * declares each function as an exported record with `fnString`, `args`,
 * `returns`, `fn` and optional `summary` and `description` properties.
 *
 * The script engine is not part of the model. What `RunString` reports is a
 * parameter of `Parse`, and the `__exports` object is given as the sequence
 * of its entries in key order. Each property read is a `Field`: absent (a
 * nil value), throwing (the error `Try` catches) or present. An `args` entry
 * is a map whose `type` and `description` entries are kept when they are
 * strings, or anything else.
 */
module FunctionsParser {
  import opened Wrappers
  import opened ArgNames
  import opened Arguments
  import opened Collecting

  /** A property read through `vm.Try`. */
  datatype Field<T> = Absent | Throws(message: string) | Present(value: T)

  /** One `args` entry: a map with its string-valued `type` and `description`, or anything else. */
  datatype RawArgument =
    | ArgumentMap(typ: Option<string>, description: Option<string>)
    | NotAMap

  /** The exported `args` value: an array of entries, or anything else. */
  datatype RawArguments = ArgumentArray(entries: seq<RawArgument>) | NotAnArray

  /** Whether `goja.AssertFunction` accepts the exported `fn`. */
  datatype FnValue = Callable | NotCallable

  /** One entry of `__exports`. */
  datatype Export = Export(
    key: string,
    fnString: Field<string>,
    args: Field<RawArguments>,
    returnsValue: Field<string>,
    fn: Field<FnValue>,
    summary: Field<string>,
    description: Field<string>)

  /** `JSFunction`, without the callable. */
  datatype JSFunction = JSFunction(
    name: string,
    args: seq<JSArgument>,
    returnType: string,
    summary: string,
    description: string)

  datatype ParseError =
    /** "could not run user-defined script" */
    | ScriptFailed(message: string)
    /** "function %s cannot be stringified" */
    | NotStringified(key: string, message: string)
    /** "function %s has an empty stringified value" */
    | EmptyFnString(key: string)
    /** "could no extract argument names from function %s" */
    | NoArgumentNames(key: string, cause: ArgNamesError)
    /** "function %s is has an invalid 'args' declarations" */
    | InvalidArgs(key: string, message: string)
    /** "function %s is missing the required 'args' declarations" */
    | MissingArgs(key: string)
    /** "... expecting array of args, but instead got %T" */
    | ArgsNotAnArray(key: string)
    /** "argument %d of function %s is missing the required 'type' declaration" */
    | ArgumentMissingType(index: nat, key: string)
    /** `argNames[i]` past the extracted names: the Go code panics. */
    | ArgumentUnnamed(index: nat, key: string)
    /** "could not parse argument %d of function %s" */
    | ArgumentNotAMap(index: nat, key: string)
    /** "function %s is has an invalid 'returns' type declaration" */
    | InvalidReturns(key: string, message: string)
    /** "function %s is missing the required 'returns' type declaration" */
    | MissingReturns(key: string)
    /** "function %s is has an invalid 'fn' function declaration" */
    | InvalidFn(key: string, message: string)
    /** "function %s is missing the required 'fn' function declaration" */
    | MissingFn(key: string)
    /** "library exported %v func, but the JSVM could not return its pointer" */
    | FnNotCallable(key: string)

  // ---------------------------------------------------------------------
  // The declaration checks as functions
  // ---------------------------------------------------------------------

  /** One pass of the `args` loop, for entry `i`. */
  function ArgumentDeclared(key: string, names: seq<string>, i: nat, raw: RawArgument): Result<JSArgument, ParseError> {
    match raw
    case NotAMap => Failure(ArgumentNotAMap(i, key))
    case ArgumentMap(typ, description) =>
      if typ.None? then Failure(ArgumentMissingType(i, key))
      else if i >= |names| then Failure(ArgumentUnnamed(i, key))
      else Success(JSArgument(names[i], if description.Some? then description.value else "", typ.value))
  }

  function ArgumentResults(key: string, names: seq<string>, raws: seq<RawArgument>): (rs: seq<Result<JSArgument, ParseError>>)
    ensures |rs| == |raws|
    ensures forall i :: 0 <= i < |raws| ==> rs[i] == ArgumentDeclared(key, names, i, raws[i])
  {
    seq(|raws|, i requires 0 <= i < |raws| => ArgumentDeclared(key, names, i, raws[i]))
  }

  /** The `args` loop: every entry in order, or the first entry's error. */
  function ArgumentsDeclared(key: string, names: seq<string>, raws: seq<RawArgument>): Result<seq<JSArgument>, ParseError> {
    Collected(ArgumentResults(key, names, raws))
  }

  /** A string property that may be missing: absent and throwing both read as empty. */
  function Optional(f: Field<string>): string {
    if f.Present? then f.value else ""
  }

  /** The part of the loop body after the `args` loop. */
  function Completed(e: Export, args: seq<JSArgument>): Result<JSFunction, ParseError> {
    match e.returnsValue
    case Throws(m) => Failure(InvalidReturns(e.key, m))
    case Absent => Failure(MissingReturns(e.key))
    case Present(returnType) =>
      match e.fn
      case Throws(m) => Failure(InvalidFn(e.key, m))
      case Absent => Failure(MissingFn(e.key))
      case Present(NotCallable) => Failure(FnNotCallable(e.key))
      case Present(Callable) => Success(JSFunction(e.key, args, returnType, Optional(e.summary), Optional(e.description)))
  }

  /** The part of the loop body that reads `args`, given the extracted names. */
  function WithArguments(e: Export, names: seq<string>): Result<JSFunction, ParseError> {
    match e.args
    case Throws(m) => Failure(InvalidArgs(e.key, m))
    case Absent => Failure(MissingArgs(e.key))
    case Present(NotAnArray) => Failure(ArgsNotAnArray(e.key))
    case Present(ArgumentArray(raws)) =>
      match ArgumentsDeclared(e.key, names, raws)
      case Failure(err) => Failure(err)
      case Success(args) => Completed(e, args)
  }

  /** The body of the loop over `__exports` for one entry. */
  function Declared(e: Export): Result<JSFunction, ParseError> {
    match e.fnString
    case Throws(m) => Failure(NotStringified(e.key, m))
    case Absent => Failure(EmptyFnString(e.key))
    case Present(fnString) =>
      match Names(fnString)
      case Failure(err) => Failure(NoArgumentNames(e.key, err))
      case Success(names) => WithArguments(e, names)
  }

  function DeclaredAll(exports: seq<Export>): (rs: seq<Result<JSFunction, ParseError>>)
    ensures |rs| == |exports|
    ensures forall i :: 0 <= i < |exports| ==> rs[i] == Declared(exports[i])
  {
    seq(|exports|, i requires 0 <= i < |exports| => Declared(exports[i]))
  }

  /** The functions appended before the loop stops: those before the first failing entry. */
  function Appended(exports: seq<Export>): (fs: seq<JSFunction>) {
    var rs := DeclaredAll(exports);
    var k := FirstFailure(rs, 0);
    seq(k, i requires 0 <= i < k => rs[i].value)
  }

  /** The error the loop stops with, if any. */
  function StopError(exports: seq<Export>): Option<ParseError> {
    var rs := DeclaredAll(exports);
    var k := FirstFailure(rs, 0);
    if k < |rs| then Some(rs[k].error) else None
  }

  // ---------------------------------------------------------------------
  // What the declaration checks promise
  // ---------------------------------------------------------------------

  /** Argument `i` takes the `i`-th extracted name, its declared type, and its description or the empty one. */
  lemma ArgumentsDeclaredValues(key: string, names: seq<string>, raws: seq<RawArgument>)
    requires ArgumentsDeclared(key, names, raws).Success?
    ensures var args := ArgumentsDeclared(key, names, raws).value;
      |args| == |raws| && |raws| <= |names|
      && forall i :: 0 <= i < |raws| ==>
        raws[i].ArgumentMap? && raws[i].typ.Some?
        && args[i] == JSArgument(names[i], Optional(OptionField(raws[i].description)), raws[i].typ.value)
  {
    var rs := ArgumentResults(key, names, raws);
    if |raws| > 0 {
      assert rs[|raws| - 1].Success?;
    }
  }

  /** An optional string entry read as a field. */
  function OptionField(o: Option<string>): Field<string> {
    if o.Some? then Present(o.value) else Absent
  }

  /**
   * The `args` loop fails exactly when some entry is not a map, has no
   * string `type`, or has no extracted name at its position; the error
   * names the first such entry, and every entry before it is well formed.
   */
  lemma ArgumentsDeclaredFailure(key: string, names: seq<string>, raws: seq<RawArgument>)
    requires ArgumentsDeclared(key, names, raws).Failure?
    ensures var e := ArgumentsDeclared(key, names, raws).error;
      (e.ArgumentNotAMap? || e.ArgumentMissingType? || e.ArgumentUnnamed?) && e.key == key
      && e.index < |raws|
      && (e.ArgumentNotAMap? <==> raws[e.index].NotAMap?)
      && (e.ArgumentMissingType? <==> raws[e.index].ArgumentMap? && raws[e.index].typ.None?)
      && (e.ArgumentUnnamed? ==> e.index >= |names|)
      && forall j :: 0 <= j < e.index ==> raws[j].ArgumentMap? && raws[j].typ.Some? && j < |names|
  {
    var rs := ArgumentResults(key, names, raws);
    var k := FirstFailure(rs, 0);
    assert rs[k] == ArgumentDeclared(key, names, k, raws[k]);
    assert ArgumentsDeclared(key, names, raws).error == rs[k].error;
    assert rs[k].error.index == k;
    forall j | 0 <= j < k
      ensures raws[j].ArgumentMap? && raws[j].typ.Some? && j < |names|
    {
      assert rs[j] == ArgumentDeclared(key, names, j, raws[j]);
      assert rs[j].Success?;
    }
  }

  /** More declared arguments than extracted names is always an error. */
  lemma MoreArgumentsThanNames(key: string, names: seq<string>, raws: seq<RawArgument>)
    requires |raws| > |names|
    ensures ArgumentsDeclared(key, names, raws).Failure?
  {
    if ArgumentsDeclared(key, names, raws).Success? {
      ArgumentsDeclaredValues(key, names, raws);
    }
  }

  /**
   * A declaration is accepted only with a `fnString` whose parameter names
   * can be extracted, an array of `args`, a `returns` and a callable `fn`.
   */
  lemma DeclaredRequiresAll(e: Export)
    requires Declared(e).Success?
    ensures e.fnString.Present? && Names(e.fnString.value).Success?
    ensures e.args.Present? && e.args.value.ArgumentArray?
    ensures ArgumentsDeclared(e.key, Names(e.fnString.value).value, e.args.value.entries).Success?
    ensures e.returnsValue.Present? && e.fn == Present(Callable)
  {
  }

  /**
   * An accepted declaration is named by its export key, takes its arguments
   * from the `args` loop and returns the `returns` string; a missing summary
   * or description reads as empty.
   */
  lemma DeclaredFields(e: Export)
    requires Declared(e).Success?
    ensures e.fnString.Present? && Names(e.fnString.value).Success? && e.args.Present? && e.args.value.ArgumentArray?
    ensures e.returnsValue.Present?
    ensures var f := Declared(e).value;
      f.name == e.key && f.returnType == e.returnsValue.value
      && f.summary == Optional(e.summary) && f.description == Optional(e.description)
      && Success(f.args) == ArgumentsDeclared(e.key, Names(e.fnString.value).value, e.args.value.entries)
  {
    DeclaredRequiresAll(e);
    var names := Names(e.fnString.value).value;
    var args := ArgumentsDeclared(e.key, names, e.args.value.entries).value;
    assert Declared(e) == Completed(e, args);
  }

  /** Every declared field but the optional two is checked, in the order of the source. */
  lemma MissingDeclarations(e: Export)
    ensures e.fnString.Absent? ==> Declared(e) == Failure(EmptyFnString(e.key))
    ensures e.fnString.Present? && Names(e.fnString.value).Success? && e.args.Absent? ==>
      Declared(e) == Failure(MissingArgs(e.key))
    ensures (e.fnString.Present? && Names(e.fnString.value).Success? && e.args.Present? && e.args.value.ArgumentArray?
      && ArgumentsDeclared(e.key, Names(e.fnString.value).value, e.args.value.entries).Success? && e.returnsValue.Absent?) ==>
      Declared(e) == Failure(MissingReturns(e.key))
    ensures (e.fnString.Present? && Names(e.fnString.value).Success? && e.args.Present? && e.args.value.ArgumentArray?
      && ArgumentsDeclared(e.key, Names(e.fnString.value).value, e.args.value.entries).Success? && e.returnsValue.Present?
      && e.fn.Absent?) ==>
      Declared(e) == Failure(MissingFn(e.key))
  {
  }

  /**
   * The loop appends the declarations in export order up to the first one
   * that fails and stops there: the error is that declaration's, and
   * without a failure every declaration is appended.
   */
  lemma AppendedInOrder(exports: seq<Export>)
    ensures |Appended(exports)| <= |exports|
    ensures forall i :: 0 <= i < |Appended(exports)| ==> Declared(exports[i]) == Success(Appended(exports)[i])
    ensures StopError(exports).None? <==> forall i :: 0 <= i < |exports| ==> Declared(exports[i]).Success?
    ensures StopError(exports).None? ==> |Appended(exports)| == |exports|
    ensures StopError(exports).Some? ==>
      var k := |Appended(exports)|;
      k < |exports| && Declared(exports[k]) == Failure(StopError(exports).value)
  {
    var rs := DeclaredAll(exports);
    var k := FirstFailure(rs, 0);
    if k == |rs| {
      forall i | 0 <= i < |exports|
        ensures Declared(exports[i]).Success?
      {
        assert rs[i].Success?;
      }
    } else {
      assert rs[k].Failure?;
    }
  }

  // ---------------------------------------------------------------------
  // Parser
  // ---------------------------------------------------------------------

  /** `Parser`, without the engine. */
  class Parser {
    var funcs: seq<JSFunction>

    /** `New()`: no functions yet. */
    constructor ()
      ensures funcs == []
    {
      funcs := [];
    }

    /** `GetFunctions()`. */
    method GetFunctions() returns (fs: seq<JSFunction>)
      ensures fs == funcs
    {
      fs := funcs;
    }

    /**
     * `Parse(script)`: after the script has run (`runError` is what the
     * engine reports), each export is declared in turn and appended; the
     * first failure is returned at once, and what was appended before it
     * stays.
     */
    method Parse(runError: Option<string>, exports: seq<Export>) returns (err: Option<ParseError>)
      modifies this
      ensures runError.Some? ==> err == Some(ScriptFailed(runError.value)) && funcs == old(funcs)
      ensures runError.None? ==> funcs == old(funcs) + Appended(exports) && err == StopError(exports)
    {
      if runError.Some? {
        return Some(ScriptFailed(runError.value));
      }
      ghost var appended: seq<JSFunction> := [];
      for i := 0 to |exports|
        invariant |appended| == i
        invariant DeclaredPrefix(exports, appended)
        invariant funcs == old(funcs) + appended
      {
        var f := DeclareFunction(exports[i]);
        if f.Failure? {
          StoppedAt(exports, i, appended);
          return Some(f.error);
        }
        funcs := funcs + [f.value];
        DeclaredPrefixGrows(exports, appended, f.value);
        appended := appended + [f.value];
      }
      StoppedAt(exports, |exports|, appended);
      return None;
    }
  }

  /** `appended` holds the declarations of the first entries. */
  ghost predicate DeclaredPrefix(exports: seq<Export>, appended: seq<JSFunction>) {
    |appended| <= |exports| && forall j :: 0 <= j < |appended| ==> Declared(exports[j]) == Success(appended[j])
  }

  lemma DeclaredPrefixGrows(exports: seq<Export>, appended: seq<JSFunction>, f: JSFunction)
    requires DeclaredPrefix(exports, appended) && |appended| < |exports|
    requires Declared(exports[|appended|]) == Success(f)
    ensures DeclaredPrefix(exports, appended + [f])
  {
    var grown := appended + [f];
    forall j | 0 <= j < |grown|
      ensures Declared(exports[j]) == Success(grown[j])
    {
      if j < |appended| {
        assert grown[j] == appended[j];
      }
    }
  }

  /** The loop over `__exports` stops at `k`, the first failing entry or the end. */
  lemma StoppedAt(exports: seq<Export>, k: nat, appended: seq<JSFunction>)
    requires k <= |exports| && |appended| == k
    requires k < |exports| ==> Declared(exports[k]).Failure?
    requires DeclaredPrefix(exports, appended)
    ensures Appended(exports) == appended
    ensures StopError(exports) == if k < |exports| then Some(Declared(exports[k]).error) else None
  {
    var rs := DeclaredAll(exports);
    if k < |exports| {
      CollectedReports(rs, k);
    }
    assert FirstFailure(rs, 0) == k;
  }

  /** The body of the loop over `__exports` for one entry. */
  method DeclareFunction(e: Export) returns (r: Result<JSFunction, ParseError>)
    ensures r == Declared(e)
  {
    if e.fnString.Throws? {
      return Failure(NotStringified(e.key, e.fnString.message));
    } else if e.fnString.Absent? {
      return Failure(EmptyFnString(e.key));
    }
    var argNames := ExtractArgNames(e.fnString.value);
    if argNames.Failure? {
      return Failure(NoArgumentNames(e.key, argNames.error));
    }
    if e.args.Throws? {
      return Failure(InvalidArgs(e.key, e.args.message));
    } else if e.args.Absent? {
      return Failure(MissingArgs(e.key));
    }
    if e.args.value.NotAnArray? {
      return Failure(ArgsNotAnArray(e.key));
    }
    var args := DeclareArguments(e.key, argNames.value, e.args.value.entries);
    if args.Failure? {
      return Failure(args.error);
    }
    r := CompleteFunction(e, args.value);
  }

  /** The checks of `returns` and `fn` and the optional reads. */
  method CompleteFunction(e: Export, args: seq<JSArgument>) returns (r: Result<JSFunction, ParseError>)
    ensures r == Completed(e, args)
  {
    if e.returnsValue.Throws? {
      return Failure(InvalidReturns(e.key, e.returnsValue.message));
    } else if e.returnsValue.Absent? {
      return Failure(MissingReturns(e.key));
    }
    var returnType := e.returnsValue.value;
    if e.fn.Throws? {
      return Failure(InvalidFn(e.key, e.fn.message));
    } else if e.fn.Absent? {
      return Failure(MissingFn(e.key));
    }
    if e.fn.value.NotCallable? {
      return Failure(FnNotCallable(e.key));
    }
    var summary := "";
    if e.summary.Present? {
      summary := e.summary.value;
    }
    var description := "";
    if e.description.Present? {
      description := e.description.value;
    }
    return Success(JSFunction(e.key, args, returnType, summary, description));
  }

  /** The `args` loop, appending one argument per entry. */
  method DeclareArguments(key: string, argNames: seq<string>, rawArgs: seq<RawArgument>) returns (r: Result<seq<JSArgument>, ParseError>)
    ensures r == ArgumentsDeclared(key, argNames, rawArgs)
  {
    ghost var rs := ArgumentResults(key, argNames, rawArgs);
    var args: seq<JSArgument> := [];
    for i := 0 to |rawArgs|
      invariant |args| == i
      invariant forall j :: 0 <= j < i ==> rs[j].Success? && args[j] == rs[j].value
    {
      var rawArg := rawArgs[i];
      if rawArg.NotAMap? {
        CollectedReports(rs, i);
        return Failure(ArgumentNotAMap(i, key));
      }
      if rawArg.typ.None? {
        CollectedReports(rs, i);
        return Failure(ArgumentMissingType(i, key));
      }
      if i >= |argNames| {
        CollectedReports(rs, i);
        return Failure(ArgumentUnnamed(i, key));
      }
      var description := "";
      if rawArg.description.Some? {
        description := rawArg.description.value;
      }
      args := args + [JSArgument(argNames[i], description, rawArg.typ.value)];
    }
    assert args == Collected(rs).value;
    return Success(args);
  }
}
