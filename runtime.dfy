/**
 * internal/javascript/runtime.go: the script runtime's two registries, the
 * JSDoc metadata by signature fingerprint and the built functions by name,
 * and how a registered script function is turned into a provider function.
 *
 * The script engine is not part of the model. What the engine reports for
 * `RunString` is a parameter of `Parse`; the calls the script makes to the
 * global `$` are `RegisterFn` calls, and the value each call receives is an
 * abstract `Registered` record (nothing, something that is not a function,
 * or a function with its `name` property and its source text). A panic
 * raised through the engine is an error outcome.
 */
module JsRuntime {
  import opened Wrappers
  import opened Text
  import opened Types
  import opened Values
  import opened JsTypes
  import opened TfArg
  import opened JsDoc
  import opened ArgNames
  import opened JsFunction

  // ---------------------------------------------------------------------
  // parseFunction as a function
  // ---------------------------------------------------------------------

  /** `strings.SplitN(fnStr, "\n", 2)[0]`: the text before the first line break. */
  function FirstLine(s: string): (r: string)
    ensures Excludes(r, '\n')
  {
    s[..NextIndex(s, '\n', 0)]
  }

  /** The metadata key of a function: its first line without white space. */
  function FunctionHash(fnStr: string): string {
    RemoveWhitespace(FirstLine(fnStr))
  }

  /** The argument list before any metadata: each name with type `any` and no description. */
  function DefaultArguments(names: seq<string>): (args: seq<ArgumentInput>)
    ensures |args| == |names|
  {
    seq(|names|, i requires 0 <= i < |names| => ArgumentInput(names[i], "", "any"))
  }

  /** The entry of a `@param` line as an argument input. */
  function FromParam(p: ArgumentMetadata): ArgumentInput {
    ArgumentInput(p.name, p.description, p.typ)
  }

  /** The arguments after the `@param` entries have overwritten the first `|params|` of them. */
  function Documented(args: seq<ArgumentInput>, params: seq<ArgumentMetadata>): (r: seq<ArgumentInput>)
    requires |params| <= |args|
    ensures |r| == |args|
  {
    seq(|args|, i requires 0 <= i < |args| => if i < |params| then FromParam(params[i]) else args[i])
  }

  datatype ParseFunctionError =
    /** "could no extract argument names from function %s" */
    | NoArgumentNames(cause: ArgNamesError)
    /** `args[i]` past the declared arguments: the Go code panics. */
    | UndeclaredParameter(index: nat)
    /** `metadata.returns.typ` on a nil `returns`: the Go code panics. */
    | MissingReturns
    /** An error of `NewJavaScriptFunction`. */
    | Rejected(functionError: FunctionError)

  /** The input `parseFunction` hands to `NewJavaScriptFunction`. */
  function InputOf(md: map<string, FunctionMetadata>, name: string, fnStr: string): Result<FunctionInput, ParseFunctionError> {
    Merged(md, name, Names(fnStr), FunctionHash(fnStr))
  }

  /** The metadata merge, from the extracted names and the fingerprint. */
  function Merged(md: map<string, FunctionMetadata>, name: string, argNames: Result<seq<string>, ArgNamesError>, hash: string): Result<FunctionInput, ParseFunctionError> {
    match argNames
    case Failure(e) => Failure(NoArgumentNames(e))
    case Success(names) =>
      var args := DefaultArguments(names);
      if hash !in md then Success(FunctionInput(name, "", "", args, "any"))
      else
        var m := md[hash];
        if |m.params| > |names| then Failure(UndeclaredParameter(|names|))
        else if m.returnEntry.None? then Failure(MissingReturns)
        else Success(FunctionInput(name, m.summary, m.description, Documented(args, m.params), m.returnEntry.value.typ))
  }

  /** `parseFunction(name, fn, fnStr)` against the metadata registry `md`. */
  function ParsedFunction(md: map<string, FunctionMetadata>, name: string, fnStr: string): Result<Function, ParseFunctionError> {
    Assembled(InputOf(md, name, fnStr))
  }

  /** `NewJavaScriptFunction` on the merged input, if there is one. */
  function Assembled(input: Result<FunctionInput, ParseFunctionError>): Result<Function, ParseFunctionError> {
    match input
    case Failure(e) => Failure(e)
    case Success(fin) =>
      match Built(Some(fin))
      case Failure(e) => Failure(Rejected(e))
      case Success(f) => Success(f)
  }

  // ---------------------------------------------------------------------
  // What parseFunction promises
  // ---------------------------------------------------------------------

  /** The fingerprint is taken from the first line alone: what follows the first line break does not matter. */
  lemma HashOfFirstLine(line: string, body: string)
    requires Excludes(line, '\n')
    ensures FunctionHash(line + "\n" + body) == RemoveWhitespace(line)
    ensures FunctionHash(line) == RemoveWhitespace(line)
  {
    var s := line + "\n" + body;
    NextIndexIs(s, '\n', 0, |line|);
    assert s[..|line|] == line;
    assert line[..|line|] == line;
  }

  /** Two sources whose first lines differ only in white space find the same metadata. */
  lemma SameSignatureSameMetadata(md: map<string, FunctionMetadata>, name: string, a: string, b: string)
    requires FunctionHash(a) == FunctionHash(b) && Names(a) == Names(b)
    ensures ParsedFunction(md, name, a) == ParsedFunction(md, name, b)
  {
    assert InputOf(md, name, a) == InputOf(md, name, b);
  }

  /** The default type string of an argument and of the return is Dynamic. */
  lemma AnyIsDynamic()
    ensures ParseType("any") == Success(Dynamic)
  {
    PrimitiveExamples();
  }

  /** Each name `extractArgNames` returns is accepted by `NewJavaScriptFunction` with type `any`. */
  lemma DefaultArgumentsAccepted(names: seq<string>)
    requires forall i :: 0 <= i < |names| ==> names[i] != ""
    ensures forall i :: 0 <= i < |names| ==> ArgumentAccepted(DefaultArguments(names)[i])
  {
    AnyIsDynamic();
  }

  /**
   * Without matching metadata a function is always built: it keeps the
   * argument names of its source in order, every argument and the return
   * are dynamic, and the summary and descriptions are empty.
   */
  lemma UndocumentedFunction(md: map<string, FunctionMetadata>, name: string, fnStr: string)
    requires name != "" && Names(fnStr).Success? && FunctionHash(fnStr) !in md
    ensures ParsedFunction(md, name, fnStr).Success?
    ensures var f := ParsedFunction(md, name, fnStr).value; var names := Names(fnStr).value;
      f.name == name && f.summary == "" && f.description == "" && f.ret.shape == DynamicShape
      && |f.args| == |names|
      && forall i :: 0 <= i < |names| ==>
        f.args[i].name == names[i] && f.args[i].description == "" && f.args[i].param.shape == DynamicShape
  {
    var names := Names(fnStr).value;
    assert InputOf(md, name, fnStr) == Success(FunctionInput(name, "", "", DefaultArguments(names), "any"));
    DefaultInputBuilt(name, names);
  }

  /** The input without metadata is built, with dynamic arguments and return. */
  lemma DefaultInputBuilt(name: string, names: seq<string>)
    requires name != "" && forall i :: 0 <= i < |names| ==> names[i] != ""
    ensures var input := FunctionInput(name, "", "", DefaultArguments(names), "any");
      Built(Some(input)).Success?
      && var f := Built(Some(input)).value;
      f.name == name && f.summary == "" && f.description == "" && f.ret.shape == DynamicShape
      && |f.args| == |names|
      && forall i :: 0 <= i < |names| ==>
        f.args[i].name == names[i] && f.args[i].description == "" && f.args[i].param.shape == DynamicShape
  {
    var input := FunctionInput(name, "", "", DefaultArguments(names), "any");
    DefaultArgumentsAccepted(names);
    AnyIsDynamic();
    BuiltIff(Some(input));
    BuiltKeepsArguments(input);
  }

  /**
   * With matching metadata that lists no more parameters than the source
   * declares and has a `@returns` entry, the function takes its summary and
   * description from the metadata, the name, description and type of
   * argument `i` from the `i`-th `@param` entry, and its return type from
   * the `@returns` entry; the remaining arguments keep their source names
   * and stay dynamic.
   */
  lemma DocumentedFunction(md: map<string, FunctionMetadata>, name: string, fnStr: string, names: seq<string>)
    requires Names(fnStr) == Success(names) && FunctionHash(fnStr) in md
    requires ParsedFunction(md, name, fnStr).Success?
    ensures var m := md[FunctionHash(fnStr)]; |m.params| <= |names| && m.returnEntry.Some?
    ensures var f := ParsedFunction(md, name, fnStr).value; var m := md[FunctionHash(fnStr)];
      f.name == name && f.summary == m.summary && f.description == m.description
      && ParseType(m.returnEntry.value.typ).Success?
      && f.ret.shape == ShapeOf(ParseType(m.returnEntry.value.typ).value)
      && |f.args| == |names|
      && (forall i :: 0 <= i < |m.params| ==>
        f.args[i].name == m.params[i].name && f.args[i].description == m.params[i].description
        && ParseType(m.params[i].typ).Success? && f.args[i].param.shape == ShapeOf(ParseType(m.params[i].typ).value))
      && (forall i :: |m.params| <= i < |names| ==>
        f.args[i].name == names[i] && f.args[i].param.shape == DynamicShape)
  {
    var m := md[FunctionHash(fnStr)];
    var input := InputOf(md, name, fnStr);
    assert input == Merged(md, name, Success(names), FunctionHash(fnStr));
    assert input.Success?;
    assert |m.params| <= |names| && m.returnEntry.Some?;
    assert input.value == DocumentedInput(name, m, names);
    DocumentedInputBuilt(name, m, names);
  }

  /** The input `parseFunction` builds from matching metadata. */
  function DocumentedInput(name: string, m: FunctionMetadata, names: seq<string>): FunctionInput
    requires |m.params| <= |names| && m.returnEntry.Some?
  {
    FunctionInput(name, m.summary, m.description, Documented(DefaultArguments(names), m.params), m.returnEntry.value.typ)
  }

  /** What `NewJavaScriptFunction` makes of a merged input, when it accepts it. */
  lemma DocumentedInputBuilt(name: string, m: FunctionMetadata, names: seq<string>)
    requires |m.params| <= |names| && m.returnEntry.Some?
    requires Built(Some(DocumentedInput(name, m, names))).Success?
    ensures var f := Built(Some(DocumentedInput(name, m, names))).value;
      f.name == name && f.summary == m.summary && f.description == m.description
      && ParseType(m.returnEntry.value.typ).Success?
      && f.ret.shape == ShapeOf(ParseType(m.returnEntry.value.typ).value)
      && |f.args| == |names|
      && (forall i :: 0 <= i < |m.params| ==>
        f.args[i].name == m.params[i].name && f.args[i].description == m.params[i].description
        && ParseType(m.params[i].typ).Success? && f.args[i].param.shape == ShapeOf(ParseType(m.params[i].typ).value))
      && (forall i :: |m.params| <= i < |names| ==>
        f.args[i].name == names[i] && f.args[i].param.shape == DynamicShape)
  {
    var input := DocumentedInput(name, m, names);
    BuiltKeepsArguments(input);
    DocumentedParamsBuilt(name, m, names);
    DocumentedTailBuilt(name, m, names);
  }

  lemma DocumentedParamsBuilt(name: string, m: FunctionMetadata, names: seq<string>)
    requires |m.params| <= |names| && m.returnEntry.Some?
    requires Built(Some(DocumentedInput(name, m, names))).Success?
    ensures var f := Built(Some(DocumentedInput(name, m, names))).value;
      |f.args| == |names|
      && forall i :: 0 <= i < |m.params| ==>
        f.args[i].name == m.params[i].name && f.args[i].description == m.params[i].description
        && ParseType(m.params[i].typ).Success? && f.args[i].param.shape == ShapeOf(ParseType(m.params[i].typ).value)
  {
    var input := DocumentedInput(name, m, names);
    BuiltKeepsArguments(input);
    forall i | 0 <= i < |m.params|
      ensures var a := Built(Some(input)).value.args[i];
        a.name == m.params[i].name && a.description == m.params[i].description
        && ParseType(m.params[i].typ).Success? && a.param.shape == ShapeOf(ParseType(m.params[i].typ).value)
    {
      assert input.args[i] == FromParam(m.params[i]);
      BuiltArgument(input, i);
    }
  }

  lemma DocumentedTailBuilt(name: string, m: FunctionMetadata, names: seq<string>)
    requires |m.params| <= |names| && m.returnEntry.Some?
    requires Built(Some(DocumentedInput(name, m, names))).Success?
    ensures var f := Built(Some(DocumentedInput(name, m, names))).value;
      |f.args| == |names|
      && forall i :: |m.params| <= i < |names| ==>
        f.args[i].name == names[i] && f.args[i].param.shape == DynamicShape
  {
    var input := DocumentedInput(name, m, names);
    BuiltKeepsArguments(input);
    AnyIsDynamic();
    forall i | |m.params| <= i < |names|
      ensures var a := Built(Some(input)).value.args[i];
        a.name == names[i] && a.param.shape == DynamicShape
    {
      assert input.args[i] == ArgumentInput(names[i], "", "any");
      BuiltArgument(input, i);
    }
  }

  /** A `@param` list longer than the source's parameter list stops at the first extra entry. */
  lemma TooManyParams(md: map<string, FunctionMetadata>, name: string, fnStr: string)
    requires Names(fnStr).Success? && FunctionHash(fnStr) in md
    requires |md[FunctionHash(fnStr)].params| > |Names(fnStr).value|
    ensures ParsedFunction(md, name, fnStr) == Failure(UndeclaredParameter(|Names(fnStr).value|))
  {
  }

  /** Matching metadata without a `@returns` entry cannot be merged. */
  lemma ReturnsRequired(md: map<string, FunctionMetadata>, name: string, fnStr: string)
    requires Names(fnStr).Success? && FunctionHash(fnStr) in md
    requires |md[FunctionHash(fnStr)].params| <= |Names(fnStr).value| && md[FunctionHash(fnStr)].returnEntry.None?
    ensures ParsedFunction(md, name, fnStr) == Failure(MissingReturns)
  {
  }

  /** A built function carries the name it was registered under. */
  lemma ParsedFunctionName(md: map<string, FunctionMetadata>, name: string, fnStr: string)
    requires ParsedFunction(md, name, fnStr).Success?
    ensures ParsedFunction(md, name, fnStr).value.name == name
  {
    BuiltKeepsArguments(InputOf(md, name, fnStr).value);
  }

  // ---------------------------------------------------------------------
  // The registering function `$`
  // ---------------------------------------------------------------------

  /** The value the script passes to `$`. */
  datatype Registered =
    | Nothing
    | NotAFunction
    | FunctionValue(name: string, source: string)

  datatype RegisterError =
    /** "$() requires a function: received nothing" */
    | ReceivedNothing
    /** "$() requires a function: did not receive a function" */
    | ReceivedNoFunction
    /** "Registered function must have a name" */
    | UnnamedFunction
    /** The error of `parseFunction`. */
    | ParseFailed(cause: ParseFunctionError)

  /** What the registering function does with its argument, before the registry is updated. */
  function Registration(md: map<string, FunctionMetadata>, fnRaw: Registered): Result<Function, RegisterError> {
    match fnRaw
    case Nothing => Failure(ReceivedNothing)
    case NotAFunction => Failure(ReceivedNoFunction)
    case FunctionValue(name, source) =>
      if name == "" then Failure(UnnamedFunction)
      else
        match ParsedFunction(md, name, source)
        case Failure(e) => Failure(ParseFailed(e))
        case Success(f) => Success(f)
  }

  /** A registration that succeeds stores a function under its own, non-empty name. */
  lemma RegistrationNamed(md: map<string, FunctionMetadata>, fnRaw: Registered)
    requires Registration(md, fnRaw).Success?
    ensures fnRaw.FunctionValue? && fnRaw.name != "" && Registration(md, fnRaw).value.name == fnRaw.name
  {
    ParsedFunctionName(md, fnRaw.name, fnRaw.source);
  }

  datatype RuntimeParseError =
    /** "cannot parse jsdoc" */
    | JSDocFailed(cause: DocError)
    /** The error `RunString` returns. */
    | ScriptFailed(message: string)

  /** `JavaScriptRuntime`, without the engine. */
  class JavaScriptRuntime {
    var funcMetadata: map<string, FunctionMetadata>
    var funcs: map<string, Function>

    /** Every function is stored under its own name. */
    ghost predicate Valid()
      reads this
    {
      forall k :: k in funcs ==> funcs[k].name == k
    }

    /** `New()`: both registries start empty. */
    constructor ()
      ensures funcMetadata == map[] && funcs == map[]
      ensures Valid()
    {
      funcMetadata := map[];
      funcs := map[];
    }

    /**
     * `Parse(src)`: the JSDoc metadata of the source is added to the
     * registry, replacing entries with the same key and keeping the others,
     * then the script runs; `runError` is what the engine reports.
     */
    method Parse(src: string, runError: Option<string>) returns (err: Option<RuntimeParseError>)
      requires Valid()
      modifies this
      ensures Valid() && funcs == old(funcs)
      ensures ScriptMetadata(src).Failure? ==>
        err == Some(JSDocFailed(ScriptMetadata(src).error)) && funcMetadata == old(funcMetadata)
      ensures ScriptMetadata(src).Success? ==>
        funcMetadata == old(funcMetadata) + ScriptMetadata(src).value
        && err == (if runError.Some? then Some(ScriptFailed(runError.value)) else None)
    {
      var metadata := ParseScriptJSDoc(src);
      if metadata.Failure? {
        return Some(JSDocFailed(metadata.error));
      }
      MergeMetadata(metadata.value);
      if runError.Some? {
        return Some(ScriptFailed(runError.value));
      }
      return None;
    }

    /** `for k, v := range metadata { r.funcMetadata[k] = v }`, in some order of the keys. */
    method MergeMetadata(metadata: map<string, FunctionMetadata>)
      modifies this
      ensures funcMetadata == old(funcMetadata) + metadata && funcs == old(funcs)
    {
      var order := KeyOrder(metadata.Keys);
      for i := 0 to |order|
        invariant funcs == old(funcs)
        invariant forall k :: k in funcMetadata <==> k in old(funcMetadata) || k in order[..i]
        invariant forall k :: k in funcMetadata ==>
          funcMetadata[k] == if k in order[..i] then metadata[k] else old(funcMetadata)[k]
      {
        assert order[..i + 1] == order[..i] + [order[i]];
        funcMetadata := funcMetadata[order[i] := metadata[order[i]]];
      }
      assert order[..|order|] == order;
    }

    /**
     * The registering function `$`: a function value with a non-empty name
     * whose source builds is stored under that name, replacing any earlier
     * function of the same name; every other argument is refused and leaves
     * the registry as it was.
     */
    method RegisterFn(fnRaw: Registered) returns (err: Option<RegisterError>)
      requires Valid()
      modifies this
      ensures Valid() && funcMetadata == old(funcMetadata)
      ensures var reg := Registration(funcMetadata, fnRaw);
        if reg.Success? then err.None? && funcs == old(funcs)[fnRaw.name := reg.value]
        else err == Some(reg.error) && funcs == old(funcs)
    {
      if fnRaw.Nothing? {
        return Some(ReceivedNothing);
      }
      if fnRaw.NotAFunction? {
        return Some(ReceivedNoFunction);
      }
      err := RegisterFunction(fnRaw.name, fnRaw.source);
    }

    /** The registering function `$` once it holds a function value. */
    method RegisterFunction(fnName: string, fnStr: string) returns (err: Option<RegisterError>)
      requires Valid()
      modifies this
      ensures Valid() && funcMetadata == old(funcMetadata)
      ensures var reg := Registration(funcMetadata, FunctionValue(fnName, fnStr));
        if reg.Success? then err.None? && funcs == old(funcs)[fnName := reg.value]
        else err == Some(reg.error) && funcs == old(funcs)
    {
      if fnName == "" {
        return Some(UnnamedFunction);
      }
      var f := ParseFunction(fnName, fnStr);
      if f.Failure? {
        return Some(ParseFailed(f.error));
      }
      ParsedFunctionName(funcMetadata, fnName, fnStr);
      funcs := funcs[fnName := f.value];
      return None;
    }

    /** `Functions()`: every registered function once, in some order of the names. */
    method Functions() returns (fns: seq<Function>)
      requires Valid()
      ensures forall i :: 0 <= i < |fns| ==> fns[i].name in funcs && funcs[fns[i].name] == fns[i]
      ensures forall k :: k in funcs ==> funcs[k] in fns
      ensures forall i, j :: 0 <= i < j < |fns| ==> fns[i].name != fns[j].name
    {
      var order := KeyOrder(funcs.Keys);
      fns := [];
      for i := 0 to |order|
        invariant |fns| == i && forall j :: 0 <= j < i ==> fns[j] == funcs[order[j]]
      {
        fns := fns + [funcs[order[i]]];
      }
      forall k | k in funcs
        ensures funcs[k] in fns
      {
        var j :| 0 <= j < |order| && order[j] == k;
        assert fns[j] == funcs[k];
      }
    }

    /** `parseFunction(name, fn, fnStr)`. */
    method ParseFunction(name: string, fnStr: string) returns (r: Result<Function, ParseFunctionError>)
      ensures r == ParsedFunction(funcMetadata, name, fnStr)
    {
      var input := ParseInput(name, fnStr);
      if input.Failure? {
        return Failure(input.error);
      }
      var f := NewJavaScriptFunction(Some(input.value));
      if f.Failure? {
        return Failure(Rejected(f.error));
      }
      return Success(f.value);
    }

    /** The part of `parseFunction` before `NewJavaScriptFunction`: the argument array and the metadata merge. */
    method ParseInput(name: string, fnStr: string) returns (r: Result<FunctionInput, ParseFunctionError>)
      ensures r == InputOf(funcMetadata, name, fnStr)
    {
      var fnHash := RemoveWhitespace(FirstLine(fnStr));
      var argNames := ExtractArgNames(fnStr);
      if argNames.Failure? {
        return Failure(NoArgumentNames(argNames.error));
      }
      var args := DefaultArgumentArray(argNames.value);
      if fnHash !in funcMetadata {
        return Success(FunctionInput(name, "", "", args[..], "any"));
      }
      var metadata := funcMetadata[fnHash];
      var merged := ApplyParams(args, metadata.params);
      if !merged {
        return Failure(UndeclaredParameter(args.Length));
      }
      if metadata.returnEntry.None? {
        return Failure(MissingReturns);
      }
      return Success(FunctionInput(name, metadata.summary, metadata.description, args[..], metadata.returnEntry.value.typ));
    }
  }

  /** `make([]javaScriptArgumentInput, len(argNames))` and the loop that fills in the defaults. */
  method DefaultArgumentArray(argNames: seq<string>) returns (args: array<ArgumentInput>)
    ensures fresh(args) && args[..] == DefaultArguments(argNames)
  {
    args := new ArgumentInput[|argNames|](_ => ArgumentInput("", "", ""));
    for i := 0 to |argNames|
      invariant forall j :: 0 <= j < i ==> args[j] == ArgumentInput(argNames[j], "", "any")
    {
      args[i] := ArgumentInput(argNames[i], "", "any");
    }
    assert args[..] == DefaultArguments(argNames);
  }

  /**
   * The `@param` loop: entry `i` overwrites `args[i]`. An entry past the end
   * of the array is where the Go code panics; `ok` is false then, with the
   * entries before it written.
   */
  method ApplyParams(args: array<ArgumentInput>, params: seq<ArgumentMetadata>) returns (ok: bool)
    modifies args
    ensures ok <==> |params| <= args.Length
    ensures ok ==> args[..] == Documented(old(args[..]), params)
    ensures !ok ==> args[..] == Documented(old(args[..]), params[..args.Length])
  {
    for i := 0 to |params|
      invariant i <= args.Length
      invariant forall j :: 0 <= j < args.Length ==> args[j] == if j < i then FromParam(params[j]) else old(args[j])
    {
      if i == args.Length {
        return false;
      }
      args[i] := FromParam(params[i]);
    }
    return true;
  }
}
