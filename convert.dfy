/**
 * tftypes/tfconvert/tfconvert.go: `Convert(val, typ)`, the coercion the
 * data source applies to a script's result.
 *
 * A value whose type deep-equals the target is returned as it is; any
 * other value converts to Dynamic by being wrapped; otherwise a converter
 * chosen by the value's kind looks at the target's kind. Each Go
 * `switch tftypes.PlainTypeString(t)` is written here as a `match` on
 * `KindOf(t)`, which that tag determines (`Types.PlainTypeStringTags`).
 *
 * Collections convert to String by the framework's `String()` rendering,
 * which is a parameter `render`. Converting an object to a map walks a Go
 * map, whose visiting order is the parameter `order`.
 */
module Convert {
  import opened Wrappers
  import opened Types
  import opened Values
  import opened Helpers
  import opened Framework

  datatype ConvertError =
    /** "don't know how to convert %s into %s": a Dynamic source. */
    | UnknownConversion(from: Type, to: Type)
    /** "could not convert … into %v": a converter's default branch. */
    | NotConvertible(source: Kind, to: Type)
    /** "cannot convert tuple to list: %w" and the like: `CollapseTypes` failed. */
    | Uncollapsible(source: Kind, target: Kind, cause: CollapseError)
    /** A framework constructor's diagnostics, through `DiagnosticsToError`. */
    | Invalid(diagnostics: DiagError<Detail>)
    /** The nil-pointer panic of `ValueBigFloat()` on a null or unknown number. */
    | NilNumber

  function Lift(r: Result<Value, DiagError<Detail>>): Result<Value, ConvertError> {
    match r
    case Success(v) => Success(v)
    case Failure(e) => Failure(Invalid(e))
  }

  /**
   * The element type `CollapseTypes` hands to a constructor. For an empty
   * list it is nil in Go; the model stands Dynamic in for it.
   */
  function ElemOr(c: Option<Type>): Type {
    if c.Some? then c.value else Dynamic
  }

  // ----- bool, number and string sources -----

  function BoolConverted(v: Value, t: Type): Result<Value, ConvertError>
    requires TypeOf(v) == Bool
  {
    match KindOf(t)
    case KNumber => Success(NumberV(Int(if BoolPayload(v) then 1 else 0)))
    case KString => Success(StringV(if BoolPayload(v) then "true" else "false"))
    case _ => Failure(NotConvertible(KBool, t))
  }

  /** A Terraform number is zero; a non-integer never is. */
  predicate IsZero(x: Number) {
    x == Int(0)
  }

  /**
   * Number to bool as the source writes it: an integer that fits in int64
   * is true when nonzero; for anything else `float64` conversion is used and
   * the result is true when the float is within the tolerance of zero.
   * An integer outside int64 converts to a float of magnitude at least 2^63,
   * which is never within the tolerance.
   */
  function NumberToBoolAsWritten(x: Number): bool {
    match x
    case Int(n) => if InInt64(n) then n != 0 else false
    case Frac(_, withinTolerance) => withinTolerance
  }

  /** Number to bool as intended (and as the model converts): true exactly for a nonzero number. */
  function NumberToBool(x: Number): bool {
    match x
    case Int(n) => n != 0
    case Frac(_, _) => true
  }

  function NumberConverted(v: Value, t: Type): Result<Value, ConvertError>
    requires TypeOf(v) == Number
  {
    match KindOf(t)
    case KBool =>
      (match NumberPayload(v)
       case None => Failure(NilNumber)
       case Some(x) => Success(BoolV(NumberToBool(x))))
    case KString =>
      (match NumberPayload(v)
       case None => Failure(NilNumber)
       case Some(x) => Success(StringV(NumberText(x))))
    case _ => Failure(NotConvertible(KNumber, t))
  }

  /** A string only converts to String, and a String target never reaches the converter. */
  function StringConverted(v: Value, t: Type, render: Value -> string): Result<Value, ConvertError>
    requires TypeOf(v) == String
  {
    match KindOf(t)
    case KString => Success(StringV(render(v)))
    case _ => Failure(NotConvertible(KString, t))
  }

  // ----- collection sources -----

  function TupleConverted(v: Value, t: Type, render: Value -> string): Result<Value, ConvertError>
    requires TypeOf(v).Tuple?
  {
    match KindOf(t)
    case KString => Success(StringV(render(v)))
    case KList =>
      (match Collapse(ElementTypes(v))
       case Failure(e) => Failure(Uncollapsible(KTuple, KList, e))
       case Success(c) => Lift(NewListValue(ElemOr(c), Items(v))))
    case KSet =>
      (match Collapse(ElementTypes(v))
       case Failure(e) => Failure(Uncollapsible(KTuple, KSet, e))
       case Success(c) => Lift(NewSetValue(ElemOr(c), Items(v))))
    case _ => Failure(NotConvertible(KTuple, t))
  }

  /** The element types list and set sources hand to `NewTupleValue`: one per element. */
  function TupleTypes(n: nat, e: Type): (tys: seq<Option<Type>>)
    ensures |tys| == n && forall i :: 0 <= i < n ==> tys[i] == Some(e)
  {
    seq(n, _ => Some(e))
  }

  /**
   * The types list as the source builds it: `make([]attr.Type, n)` holds n
   * nil entries already, and the loop appends n more.
   */
  function AsWrittenTupleTypes(n: nat, e: Type): (tys: seq<Option<Type>>)
    ensures |tys| == 2 * n
    ensures forall i :: 0 <= i < n ==> tys[i] == None
    ensures forall i :: n <= i < 2 * n ==> tys[i] == Some(e)
  {
    seq(n, _ => None) + TupleTypes(n, e)
  }

  function ListConverted(v: Value, t: Type, render: Value -> string): Result<Value, ConvertError>
    requires TypeOf(v).List?
  {
    match KindOf(t)
    case KString => Success(StringV(render(v)))
    case KTuple => Lift(NewTupleValue(TupleTypes(|Items(v)|, ElementType(v)), Items(v)))
    case _ => Failure(NotConvertible(KList, t))
  }

  function SetConverted(v: Value, t: Type, render: Value -> string): Result<Value, ConvertError>
    requires TypeOf(v).Set?
  {
    match KindOf(t)
    case KString => Success(StringV(render(v)))
    case KList => Lift(NewListValue(ElementType(v), Items(v)))
    case KTuple => Lift(NewTupleValue(TupleTypes(|Items(v)|, ElementType(v)), Items(v)))
    case _ => Failure(NotConvertible(KSet, t))
  }

  /** `maps.Values(atys)`: the attribute types in the order the map is visited. */
  function ValuesInOrder(atys: map<string, Type>, order: seq<string>): (tys: seq<Type>)
    requires forall i :: 0 <= i < |order| ==> order[i] in atys
    ensures |tys| == |order| && forall i :: 0 <= i < |order| ==> tys[i] == atys[order[i]]
  {
    seq(|order|, i requires 0 <= i < |order| => atys[order[i]])
  }

  /** The attribute types Map-to-Object gives: every key the map's element type. */
  function UniformAttrs(keys: set<string>, e: Type): (atys: map<string, Type>)
    ensures atys.Keys == keys && forall k :: k in keys ==> atys[k] == e
  {
    map k | k in keys :: e
  }

  /** Objects walked in `order`: the attributes of a known object are its declared ones. */
  predicate ObjectOrder(v: Value, order: seq<string>) {
    TypeOf(v).Object? ==> IsKeyOrder(order, TypeOf(v).attrs.Keys) && Entries(v).Keys <= TypeOf(v).attrs.Keys
  }

  function ObjectConverted(v: Value, t: Type, render: Value -> string, order: seq<string>): Result<Value, ConvertError>
    requires TypeOf(v).Object? && ObjectOrder(v, order)
  {
    match KindOf(t)
    case KString => Success(StringV(render(v)))
    case KMap =>
      (match Collapse(ValuesInOrder(AttributeTypes(v), order))
       case Failure(e) => Failure(Uncollapsible(KObject, KMap, e))
       case Success(c) => Lift(NewMapValue(ElemOr(c), Entries(v), order)))
    case _ => Failure(NotConvertible(KObject, t))
  }

  function MapConverted(v: Value, t: Type, render: Value -> string): Result<Value, ConvertError>
    requires TypeOf(v).Map?
  {
    match KindOf(t)
    case KString => Success(StringV(render(v)))
    case KObject => Lift(NewObjectValue(UniformAttrs(Entries(v).Keys, ElementType(v)), Entries(v)))
    case _ => Failure(NotConvertible(KMap, t))
  }

  /** What `Convert(val, typ)` returns. */
  function Converted(v: Value, t: Type, render: Value -> string, order: seq<string>): Result<Value, ConvertError>
    requires ObjectOrder(v, order)
  {
    var ty := TypeOf(v);
    if ty == t then Success(v)
    else if t == Dynamic then Success(NewDynamicValue(v))
    else
      match KindOf(ty)
      case KBool => BoolConverted(v, t)
      case KNumber => NumberConverted(v, t)
      case KString => StringConverted(v, t, render)
      case KTuple => TupleConverted(v, t, render)
      case KList => ListConverted(v, t, render)
      case KSet => SetConverted(v, t, render)
      case KObject => ObjectConverted(v, t, render, order)
      case KMap => MapConverted(v, t, render)
      case KOther => Failure(UnknownConversion(ty, t))
  }

  // ----- what conversion promises -----

  /** The two fast paths: a value already of the target type comes back untouched; any other value converts to Dynamic by wrapping. */
  lemma ConvertFastPaths(v: Value, t: Type, render: Value -> string, order: seq<string>)
    requires ObjectOrder(v, order)
    ensures TypeOf(v) == t ==> Converted(v, t, render, order) == Success(v)
    ensures TypeOf(v) != t && t == Dynamic ==> Converted(v, t, render, order) == Success(DynamicV(v))
  {
  }

  /** Past the fast paths, the source's kind picks the converter, and a Dynamic source fails. */
  lemma Dispatch(v: Value, t: Type, render: Value -> string, order: seq<string>)
    requires ObjectOrder(v, order) && TypeOf(v) != t && t != Dynamic
    ensures TypeOf(v) == Bool ==> Converted(v, t, render, order) == BoolConverted(v, t)
    ensures TypeOf(v) == Number ==> Converted(v, t, render, order) == NumberConverted(v, t)
    ensures TypeOf(v) == String ==> Converted(v, t, render, order) == StringConverted(v, t, render)
    ensures TypeOf(v).Tuple? ==> Converted(v, t, render, order) == TupleConverted(v, t, render)
    ensures TypeOf(v).List? ==> Converted(v, t, render, order) == ListConverted(v, t, render)
    ensures TypeOf(v).Set? ==> Converted(v, t, render, order) == SetConverted(v, t, render)
    ensures TypeOf(v).Object? ==> Converted(v, t, render, order) == ObjectConverted(v, t, render, order)
    ensures TypeOf(v).Map? ==> Converted(v, t, render, order) == MapConverted(v, t, render)
    ensures TypeOf(v) == Dynamic ==> Converted(v, t, render, order) == Failure(UnknownConversion(Dynamic, t))
  {
    match TypeOf(v)
    case Bool => DispatchBool(v, t, render, order);
    case Number => DispatchNumber(v, t, render, order);
    case String => DispatchString(v, t, render, order);
    case Tuple(_) => DispatchTuple(v, t, render, order);
    case List(_) => DispatchList(v, t, render, order);
    case Set(_) => DispatchSet(v, t, render, order);
    case Object(_) => DispatchObject(v, t, render, order);
    case Map(_) => DispatchMap(v, t, render, order);
    case Dynamic => DispatchDynamic(v, t, render, order);
  }

  lemma DispatchBool(v: Value, t: Type, render: Value -> string, order: seq<string>)
    requires ObjectOrder(v, order) && TypeOf(v) != t && t != Dynamic && TypeOf(v) == Bool
    ensures Converted(v, t, render, order) == BoolConverted(v, t)
  {
  }

  lemma DispatchNumber(v: Value, t: Type, render: Value -> string, order: seq<string>)
    requires ObjectOrder(v, order) && TypeOf(v) != t && t != Dynamic && TypeOf(v) == Number
    ensures Converted(v, t, render, order) == NumberConverted(v, t)
  {
  }

  lemma DispatchString(v: Value, t: Type, render: Value -> string, order: seq<string>)
    requires ObjectOrder(v, order) && TypeOf(v) != t && t != Dynamic && TypeOf(v) == String
    ensures Converted(v, t, render, order) == StringConverted(v, t, render)
  {
  }

  lemma DispatchTuple(v: Value, t: Type, render: Value -> string, order: seq<string>)
    requires ObjectOrder(v, order) && TypeOf(v) != t && t != Dynamic && TypeOf(v).Tuple?
    ensures Converted(v, t, render, order) == TupleConverted(v, t, render)
  {
  }

  lemma DispatchList(v: Value, t: Type, render: Value -> string, order: seq<string>)
    requires ObjectOrder(v, order) && TypeOf(v) != t && t != Dynamic && TypeOf(v).List?
    ensures Converted(v, t, render, order) == ListConverted(v, t, render)
  {
  }

  lemma DispatchSet(v: Value, t: Type, render: Value -> string, order: seq<string>)
    requires ObjectOrder(v, order) && TypeOf(v) != t && t != Dynamic && TypeOf(v).Set?
    ensures Converted(v, t, render, order) == SetConverted(v, t, render)
  {
  }

  lemma DispatchObject(v: Value, t: Type, render: Value -> string, order: seq<string>)
    requires ObjectOrder(v, order) && TypeOf(v) != t && t != Dynamic && TypeOf(v).Object?
    ensures Converted(v, t, render, order) == ObjectConverted(v, t, render, order)
  {
  }

  lemma DispatchMap(v: Value, t: Type, render: Value -> string, order: seq<string>)
    requires ObjectOrder(v, order) && TypeOf(v) != t && t != Dynamic && TypeOf(v).Map?
    ensures Converted(v, t, render, order) == MapConverted(v, t, render)
  {
  }

  lemma DispatchDynamic(v: Value, t: Type, render: Value -> string, order: seq<string>)
    requires ObjectOrder(v, order) && TypeOf(v) != t && t != Dynamic && TypeOf(v) == Dynamic
    ensures Converted(v, t, render, order) == Failure(UnknownConversion(Dynamic, t))
  {
  }

  /** Bool converts to 1 or 0 as a Number and to "true" or "false" as a String, and to nothing else. */
  lemma BoolConversions(v: Value, t: Type)
    requires TypeOf(v) == Bool
    ensures t == Number ==> BoolConverted(v, t) == Success(NumberV(Int(if BoolPayload(v) then 1 else 0)))
    ensures t == String ==> BoolConverted(v, t) == Success(StringV(if BoolPayload(v) then "true" else "false"))
    ensures t != Number && t != String ==> BoolConverted(v, t) == Failure(NotConvertible(KBool, t))
  {
  }

  /**
   * A known number converts to Bool as "nonzero" and to String as its text;
   * a null or unknown one panics on the nil big.Float; every other target fails.
   */
  lemma NumberConversions(v: Value, t: Type)
    requires TypeOf(v) == Number
    ensures (t == Bool || t == String) && !v.NumberV? ==> NumberConverted(v, t) == Failure(NilNumber)
    ensures t == Bool && v.NumberV? ==> NumberConverted(v, t) == Success(BoolV(!IsZero(v.num)))
    ensures t == String && v.NumberV? ==> NumberConverted(v, t) == Success(StringV(NumberText(v.num)))
    ensures t != Bool && t != String ==> NumberConverted(v, t) == Failure(NotConvertible(KNumber, t))
  {
    if t == Bool && v.NumberV? {
      NumberToBoolIsNonZero(v.num);
    }
  }

  /** A string converts to nothing but String, and a String target is already caught by the fast path. */
  lemma StringConversions(v: Value, t: Type, render: Value -> string)
    requires TypeOf(v) == String && t != String
    ensures StringConverted(v, t, render) == Failure(NotConvertible(KString, t))
  {
  }

  /** Every collection converts to String through its rendering. */
  lemma CollectionToString(v: Value, render: Value -> string, order: seq<string>)
    requires KindOf(TypeOf(v)) in {KTuple, KList, KSet, KObject, KMap} && ObjectOrder(v, order)
    ensures Converted(v, String, render, order) == Success(StringV(render(v)))
  {
  }

  /** The kind pairs the converters handle beyond the two fast paths. */
  predicate ConvertiblePair(from: Kind, to: Kind) {
    match from
    case KBool => to == KNumber || to == KString
    case KNumber => to == KBool || to == KString
    case KString => to == KString
    case KTuple => to == KString || to == KList || to == KSet
    case KList => to == KString || to == KTuple
    case KSet => to == KString || to == KList || to == KTuple
    case KObject => to == KString || to == KMap
    case KMap => to == KString || to == KObject
    case KOther => false
  }

  /**
   * Every other pair fails with the converter's own error: Tuple to Tuple,
   * List to List or Set, Set to Set, Object to Object and Map to Map with
   * different inner types, String to anything but String, any Dynamic source.
   */
  lemma OtherPairsFail(v: Value, t: Type, render: Value -> string, order: seq<string>)
    requires ObjectOrder(v, order) && TypeOf(v) != t && t != Dynamic
    requires !ConvertiblePair(KindOf(TypeOf(v)), KindOf(t))
    ensures Converted(v, t, render, order).Failure?
    ensures KindOf(TypeOf(v)) != KOther ==> Converted(v, t, render, order) == Failure(NotConvertible(KindOf(TypeOf(v)), t))
  {
    match TypeOf(v)
    case Bool => DispatchBool(v, t, render, order); BoolOtherFail(v, t);
    case Number => DispatchNumber(v, t, render, order); NumberOtherFail(v, t);
    case String => DispatchString(v, t, render, order); StringOtherFail(v, t, render);
    case Tuple(_) => DispatchTuple(v, t, render, order); TupleOtherFail(v, t, render);
    case List(_) => DispatchList(v, t, render, order); ListOtherFail(v, t, render);
    case Set(_) => DispatchSet(v, t, render, order); SetOtherFail(v, t, render);
    case Object(_) => DispatchObject(v, t, render, order); ObjectOtherFail(v, t, render, order);
    case Map(_) => DispatchMap(v, t, render, order); MapOtherFail(v, t, render);
    case Dynamic => DispatchDynamic(v, t, render, order);
  }

  lemma BoolOtherFail(v: Value, t: Type)
    requires TypeOf(v) == Bool && !ConvertiblePair(KBool, KindOf(t))
    ensures BoolConverted(v, t) == Failure(NotConvertible(KBool, t))
  {
  }

  lemma NumberOtherFail(v: Value, t: Type)
    requires TypeOf(v) == Number && !ConvertiblePair(KNumber, KindOf(t))
    ensures NumberConverted(v, t) == Failure(NotConvertible(KNumber, t))
  {
  }

  lemma StringOtherFail(v: Value, t: Type, render: Value -> string)
    requires TypeOf(v) == String && !ConvertiblePair(KString, KindOf(t))
    ensures StringConverted(v, t, render) == Failure(NotConvertible(KString, t))
  {
  }

  lemma TupleOtherFail(v: Value, t: Type, render: Value -> string)
    requires TypeOf(v).Tuple? && !ConvertiblePair(KTuple, KindOf(t))
    ensures TupleConverted(v, t, render) == Failure(NotConvertible(KTuple, t))
  {
  }

  lemma ListOtherFail(v: Value, t: Type, render: Value -> string)
    requires TypeOf(v).List? && !ConvertiblePair(KList, KindOf(t))
    ensures ListConverted(v, t, render) == Failure(NotConvertible(KList, t))
  {
  }

  lemma SetOtherFail(v: Value, t: Type, render: Value -> string)
    requires TypeOf(v).Set? && !ConvertiblePair(KSet, KindOf(t))
    ensures SetConverted(v, t, render) == Failure(NotConvertible(KSet, t))
  {
  }

  lemma ObjectOtherFail(v: Value, t: Type, render: Value -> string, order: seq<string>)
    requires TypeOf(v).Object? && ObjectOrder(v, order) && !ConvertiblePair(KObject, KindOf(t))
    ensures ObjectConverted(v, t, render, order) == Failure(NotConvertible(KObject, t))
  {
  }

  lemma MapOtherFail(v: Value, t: Type, render: Value -> string)
    requires TypeOf(v).Map? && !ConvertiblePair(KMap, KindOf(t))
    ensures MapConverted(v, t, render) == Failure(NotConvertible(KMap, t))
  {
  }

  /** Items of a well-typed list, set or tuple are well typed. */
  lemma ItemsWellTyped(v: Value)
    requires WellTyped(v)
    ensures forall i :: 0 <= i < |Items(v)| ==> WellTyped(Items(v)[i])
    ensures forall k :: k in Entries(v) ==> WellTyped(Entries(v)[k])
  {
  }

  lemma TupleConvertedWellTyped(v: Value, t: Type, render: Value -> string)
    requires WellTyped(v) && TypeOf(v).Tuple?
    ensures var r := TupleConverted(v, t, render);
            r.Success? ==> WellTyped(r.value) && KindOf(TypeOf(r.value)) == KindOf(t)
  {
    ItemsWellTyped(v);
  }

  lemma ListConvertedWellTyped(v: Value, t: Type, render: Value -> string)
    requires WellTyped(v) && TypeOf(v).List?
    ensures var r := ListConverted(v, t, render);
            r.Success? ==> WellTyped(r.value) && KindOf(TypeOf(r.value)) == KindOf(t)
  {
    ItemsWellTyped(v);
  }

  lemma SetConvertedWellTyped(v: Value, t: Type, render: Value -> string)
    requires WellTyped(v) && TypeOf(v).Set?
    ensures var r := SetConverted(v, t, render);
            r.Success? ==> WellTyped(r.value) && KindOf(TypeOf(r.value)) == KindOf(t)
  {
    ItemsWellTyped(v);
  }

  lemma ObjectConvertedWellTyped(v: Value, t: Type, render: Value -> string, order: seq<string>)
    requires WellTyped(v) && TypeOf(v).Object? && ObjectOrder(v, order)
    ensures var r := ObjectConverted(v, t, render, order);
            r.Success? ==> WellTyped(r.value) && KindOf(TypeOf(r.value)) == KindOf(t)
  {
    ItemsWellTyped(v);
  }

  lemma MapConvertedWellTyped(v: Value, t: Type, render: Value -> string)
    requires WellTyped(v) && TypeOf(v).Map?
    ensures var r := MapConverted(v, t, render);
            r.Success? ==> WellTyped(r.value) && KindOf(TypeOf(r.value)) == KindOf(t)
  {
    ItemsWellTyped(v);
  }

  /**
   * A successful conversion yields a well-typed value of the target's kind.
   * Its inner types need not be the target's: a tuple of numbers converted
   * to List(String) is a List(Number).
   */
  lemma ConvertedWellTyped(v: Value, t: Type, render: Value -> string, order: seq<string>)
    requires WellTyped(v) && ObjectOrder(v, order)
    ensures var r := Converted(v, t, render, order);
            r.Success? ==> WellTyped(r.value) && KindOf(TypeOf(r.value)) == KindOf(t)
  {
    if TypeOf(v) != t && t != Dynamic {
      Dispatch(v, t, render, order);
      match TypeOf(v)
      case Tuple(_) => TupleConvertedWellTyped(v, t, render);
      case List(_) => ListConvertedWellTyped(v, t, render);
      case Set(_) => SetConvertedWellTyped(v, t, render);
      case Object(_) => ObjectConvertedWellTyped(v, t, render, order);
      case Map(_) => MapConvertedWellTyped(v, t, render);
      case _ =>
    }
  }

  /**
   * The elements of a tuple share one type, deeply, and that type is not
   * Dynamic unless it is the only one.
   */
  predicate Uniform(ts: seq<Type>) {
    |ts| <= 1 || (ts[0] != Dynamic && forall i :: 0 <= i < |ts| ==> ts[i] == ts[0])
  }

  /** Collapsing a uniform type list succeeds with its first type; success on two or more types means the first is not Dynamic. */
  lemma CollapseUniform(ts: seq<Type>)
    ensures Uniform(ts) ==> Collapse(ts) == Success(if |ts| == 0 then None else Some(ts[0]))
    ensures Collapse(ts).Success? && |ts| >= 2 ==> ts[0] != Dynamic
  {
    if |ts| > 0 {
      CollapseSucceedsIff(ts, ts[0]);
      if Uniform(ts) && |ts| >= 2 {
        assert forall j :: 1 <= j < |ts| ==> TypeEqual(ts[j], ts[0]);
      }
      if Collapse(ts).Success? && |ts| >= 2 {
        assert TypeEqual(ts[1], ts[0]);
      }
    }
  }

  /**
   * A known tuple converts to a list or a set exactly when its element types
   * are uniform (shallow collapsing is not enough: the constructor checks
   * deeply); the elements keep their order and the first one's type becomes
   * the element type. A null or unknown tuple becomes an empty known
   * collection whenever its element types collapse.
   */
  lemma TupleToCollection(v: Value, t: Type, render: Value -> string)
    requires WellTyped(v) && TypeOf(v).Tuple? && (t.List? || t.Set?)
    ensures var ts := ElementTypes(v);
            var r := TupleConverted(v, t, render);
            && (v.TupleV? ==> (r.Success? <==> Uniform(ts)))
            && (!v.TupleV? ==> (r.Success? <==> Collapse(ts).Success?))
            && (r.Success? && t.List? ==> r.value == ListV(if |ts| == 0 then Dynamic else ts[0], Items(v)))
            && (r.Success? && t.Set? ==> r.value == SetV(if |ts| == 0 then Dynamic else ts[0], Items(v)))
  {
    var ts := ElementTypes(v);
    TupleCollectionBranch(v, t, render);
    CollapseUniform(ts);
    if v.TupleV? {
      UniformElements(ts, Items(v));
    }
  }

  /** The List and Set branches of the tuple converter, unfolded. */
  lemma TupleCollectionBranch(v: Value, t: Type, render: Value -> string)
    requires TypeOf(v).Tuple? && (t.List? || t.Set?)
    ensures var c := Collapse(ElementTypes(v));
            TupleConverted(v, t, render)
            == if c.Failure? then Failure(Uncollapsible(KTuple, KindOf(t), c.error))
               else if t.List? then Lift(NewListValue(ElemOr(c.value), Items(v)))
               else Lift(NewSetValue(ElemOr(c.value), Items(v)))
  {
  }

  /** Elements typed by `ts` all have the collapsed type exactly when `ts` is uniform. */
  lemma UniformElements(ts: seq<Type>, items: seq<Value>)
    requires |items| == |ts| && forall i :: 0 <= i < |ts| ==> TypeOf(items[i]) == ts[i]
    ensures (Collapse(ts).Success? && forall i :: 0 <= i < |items| ==> TypeOf(items[i]) == ElemOr(Collapse(ts).value))
            <==> Uniform(ts)
  {
    CollapseUniform(ts);
    if |ts| > 0 {
      CollapseSucceedsIff(ts, ts[0]);
    }
  }

  /**
   * A list or a set converts to a tuple with one element type per element,
   * each the collection's element type, and the same elements in order.
   */
  lemma ListOrSetToTuple(v: Value, t: Type, render: Value -> string)
    requires WellTyped(v) && (TypeOf(v).List? || TypeOf(v).Set?) && t.Tuple?
    ensures TypeOf(v).List? ==> ListConverted(v, t, render) == Success(TupleV(seq(|Items(v)|, _ => ElementType(v)), Items(v)))
    ensures TypeOf(v).Set? ==> SetConverted(v, t, render) == Success(TupleV(seq(|Items(v)|, _ => ElementType(v)), Items(v)))
  {
    TupleTypesAccepted(Items(v), ElementType(v));
  }

  /** A set converts to a list of the same element type and elements. */
  lemma SetToList(v: Value, t: Type, render: Value -> string)
    requires WellTyped(v) && TypeOf(v).Set? && t.List?
    ensures SetConverted(v, t, render) == Success(ListV(ElementType(v), Items(v)))
  {
    assert forall i :: 0 <= i < |Items(v)| ==> TypeOf(Items(v)[i]) == ElementType(v);
  }

  /** A map converts to an object whose every attribute has the map's element type. */
  lemma MapToObject(v: Value, t: Type, render: Value -> string)
    requires WellTyped(v) && TypeOf(v).Map? && t.Object?
    ensures MapConverted(v, t, render) == Success(ObjectV(UniformAttrs(Entries(v).Keys, ElementType(v)), Entries(v)))
  {
    assert forall k :: k in Entries(v) ==> TypeOf(Entries(v)[k]) == ElementType(v);
  }

  /** All attributes of an object share one type, deeply, and that type is not Dynamic unless it is the only one. */
  predicate UniformAttributes(atys: map<string, Type>) {
    forall k, j :: k in atys && j in atys && k != j ==> atys[k] == atys[j] && atys[k] != Dynamic
  }

  /** The attribute types in a visiting order are uniform exactly when the attributes are. */
  lemma UniformInOrder(atys: map<string, Type>, order: seq<string>)
    requires IsKeyOrder(order, atys.Keys)
    ensures Uniform(ValuesInOrder(atys, order)) <==> UniformAttributes(atys)
  {
    var tys := ValuesInOrder(atys, order);
    if Uniform(tys) {
      forall k, j | k in atys && j in atys && k != j
        ensures atys[k] == atys[j] && atys[k] != Dynamic
      {
        var a :| 0 <= a < |order| && order[a] == k;
        var b :| 0 <= b < |order| && order[b] == j;
        assert a != b;
        assert tys[a] == tys[0] && tys[b] == tys[0];
      }
    }
    if UniformAttributes(atys) && |tys| >= 2 {
      assert tys[0] == atys[order[0]] && order[0] != order[1];
      forall i | 0 <= i < |tys|
        ensures tys[i] == tys[0]
      {
        if i != 0 {
          assert order[i] != order[0];
        }
      }
    }
  }

  /**
   * A known object converts to a map exactly when its attribute types are
   * deeply uniform; the map keeps the attributes and takes their common
   * type, so the outcome is the same whatever order Go visits them in.
   */
  lemma ObjectToMap(v: Value, t: Type, render: Value -> string, order: seq<string>)
    requires WellTyped(v) && v.ObjectV? && t.Map? && ObjectOrder(v, order)
    ensures var r := ObjectConverted(v, t, render, order);
            && (r.Success? <==> UniformAttributes(v.attrTypes))
            && (r.Success? ==> forall k :: k in v.attrTypes ==> r.value == MapV(v.attrTypes[k], v.attrs))
            && (r.Success? && v.attrTypes == map[] ==> r.value == MapV(Dynamic, map[]))
  {
    var ats := v.attrTypes;
    var tys := ValuesInOrder(ats, order);
    UniformInOrder(ats, order);
    CollapseUniform(tys);
    ObjectMapBranch(v, t, render, order);
    var c := Collapse(tys);
    if c.Success? {
      var e := ElemOr(c.value);
      NewMapOfAttributes(v, e, order);
      if |tys| == 0 {
        EmptyOrder(ats, order);
      } else {
        UniformOfCollapsed(tys);
        AllAttrsAre(ats, order, e);
      }
    }
  }

  /** The Map branch of the object converter, unfolded. */
  lemma ObjectMapBranch(v: Value, t: Type, render: Value -> string, order: seq<string>)
    requires v.ObjectV? && t.Map? && ObjectOrder(v, order)
    ensures var c := Collapse(ValuesInOrder(v.attrTypes, order));
            ObjectConverted(v, t, render, order)
            == if c.Failure? then Failure(Uncollapsible(KObject, KMap, c.error)) else Lift(NewMapValue(ElemOr(c.value), v.attrs, order))
  {
    assert KindOf(t) == KMap;
    assert AttributeTypes(v) == v.attrTypes && Entries(v) == v.attrs;
  }

  /** A known object's attributes fit one element type exactly when its declared types all are that type. */
  lemma NewMapOfAttributes(v: Value, e: Type, order: seq<string>)
    requires WellTyped(v) && v.ObjectV? && forall k :: k in v.attrs ==> k in order
    ensures NewMapValue(e, v.attrs, order).Success? <==> forall k :: k in v.attrTypes ==> v.attrTypes[k] == e
    ensures NewMapValue(e, v.attrs, order).Success? ==> NewMapValue(e, v.attrs, order) == Success(MapV(e, v.attrs))
  {
  }

  /** Only the empty map has an empty visiting order. */
  lemma EmptyOrder(atys: map<string, Type>, order: seq<string>)
    requires IsKeyOrder(order, atys.Keys) && |order| == 0
    ensures atys == map[]
  {
    assert forall k :: k in atys ==> k in order;
  }

  /** A collapsed non-empty list collapses to its first type, and is uniform exactly when all its types are that one. */
  lemma UniformOfCollapsed(ts: seq<Type>)
    requires Collapse(ts).Success? && |ts| > 0
    ensures Collapse(ts).value == Some(ts[0])
    ensures Uniform(ts) <==> forall i :: 0 <= i < |ts| ==> ts[i] == ts[0]
  {
    CollapseUniform(ts);
  }

  /** Every attribute has type `e` exactly when every type in a visiting order is `e`. */
  lemma AllAttrsAre(atys: map<string, Type>, order: seq<string>, e: Type)
    requires IsKeyOrder(order, atys.Keys)
    ensures (forall k :: k in atys ==> atys[k] == e) <==> (forall i :: 0 <= i < |order| ==> ValuesInOrder(atys, order)[i] == e)
  {
    var tys := ValuesInOrder(atys, order);
    if forall i :: 0 <= i < |order| ==> tys[i] == e {
      forall k | k in atys
        ensures atys[k] == e
      {
        var a :| 0 <= a < |order| && order[a] == k;
        assert tys[a] == atys[k];
      }
    }
  }

  /** Converting a known object to a map does not depend on the order Go visits its attributes in. */
  lemma ObjectToMapOrderIrrelevant(v: Value, t: Type, render: Value -> string, order1: seq<string>, order2: seq<string>)
    requires WellTyped(v) && v.ObjectV? && t.Map? && ObjectOrder(v, order1) && ObjectOrder(v, order2)
    ensures ObjectConverted(v, t, render, order1).Success? <==> ObjectConverted(v, t, render, order2).Success?
    ensures ObjectConverted(v, t, render, order1).Success? ==> ObjectConverted(v, t, render, order1) == ObjectConverted(v, t, render, order2)
  {
    ObjectToMap(v, t, render, order1);
    ObjectToMap(v, t, render, order2);
    if ObjectConverted(v, t, render, order1).Success? && v.attrTypes != map[] {
      var k :| k in v.attrTypes;
    }
  }

  // ----- the two places where the source does not do what it evidently means -----

  /** As intended, a number converts to true exactly when it is nonzero; on exact int64 values the source agrees. */
  lemma NumberToBoolIsNonZero(x: Number)
    ensures NumberToBool(x) <==> !IsZero(x)
    ensures IsExactInt64(x) ==> NumberToBool(x) == NumberToBoolAsWritten(x)
  {
  }

  /**
   * The source's fallback path gets nonzero numbers wrong: 2.5 (a float
   * well outside the tolerance of zero) and 2^63 (an integer outside int64)
   * both convert to false.
   */
  lemma NumberToBoolAsWrittenMisses()
    ensures !IsZero(Frac("2.5", false)) && !NumberToBoolAsWritten(Frac("2.5", false))
    ensures !IsZero(Int(Int64Max + 1)) && !NumberToBoolAsWritten(Int(Int64Max + 1))
  {
  }

  /**
   * As the source builds it, the type list of a list or set converted to a
   * tuple has twice as many entries as elements, so `NewTupleValue` refuses
   * every non-empty collection.
   */
  lemma AsWrittenTupleConversionFails(items: seq<Value>, e: Type)
    requires |items| > 0
    ensures NewTupleValue(AsWrittenTupleTypes(|items|, e), items).Failure?
    ensures NewTupleValue(AsWrittenTupleTypes(|items|, e), items).error.detail.TupleLength?
  {
  }

  /** With one type per element, every well-typed list or set converts to a tuple of its elements. */
  lemma TupleTypesAccepted(items: seq<Value>, e: Type)
    requires forall i :: 0 <= i < |items| ==> TypeOf(items[i]) == e
    ensures NewTupleValue(TupleTypes(|items|, e), items) == Success(TupleV(seq(|items|, _ => e), items))
  {
    assert TypesOf(items) == seq(|items|, _ => e);
  }

  // ----- the converters' loops, and Convert itself -----

  /** The loop of the list and set converters as intended: one element type per element. */
  method BuildTupleTypes(items: seq<Value>, e: Type) returns (tys: seq<Option<Type>>)
    ensures tys == TupleTypes(|items|, e)
  {
    tys := [];
    for i := 0 to |items|
      invariant tys == TupleTypes(i, e)
    {
      tys := tys + [Some(e)];
    }
  }

  /** The same loop as the source writes it, after `make([]attr.Type, len(items))`. */
  method BuildTupleTypesAsWritten(items: seq<Value>, e: Type) returns (tys: seq<Option<Type>>)
    ensures tys == AsWrittenTupleTypes(|items|, e)
  {
    tys := seq(|items|, _ => None);
    ghost var nils := tys;
    for i := 0 to |items|
      invariant tys == nils + TupleTypes(i, e)
    {
      tys := tys + [Some(e)];
    }
  }

  method ConvertTuple(v: Value, t: Type, render: Value -> string) returns (r: Result<Value, ConvertError>)
    requires TypeOf(v).Tuple?
    ensures r == TupleConverted(v, t, render)
  {
    match KindOf(t)
    case KString =>
      r := Success(StringV(render(v)));
    case KList =>
      var c := CollapseTypes(ElementTypes(v));
      if c.Failure? {
        return Failure(Uncollapsible(KTuple, KList, c.error));
      }
      r := Lift(NewListValue(ElemOr(c.value), Items(v)));
    case KSet =>
      var c := CollapseTypes(ElementTypes(v));
      if c.Failure? {
        return Failure(Uncollapsible(KTuple, KSet, c.error));
      }
      r := Lift(NewSetValue(ElemOr(c.value), Items(v)));
    case _ =>
      r := Failure(NotConvertible(KTuple, t));
  }

  method ConvertList(v: Value, t: Type, render: Value -> string) returns (r: Result<Value, ConvertError>)
    requires TypeOf(v).List?
    ensures r == ListConverted(v, t, render)
  {
    match KindOf(t)
    case KString =>
      r := Success(StringV(render(v)));
    case KTuple =>
      var tys := BuildTupleTypes(Items(v), ElementType(v));
      r := Lift(NewTupleValue(tys, Items(v)));
    case _ =>
      r := Failure(NotConvertible(KList, t));
  }

  method ConvertSet(v: Value, t: Type, render: Value -> string) returns (r: Result<Value, ConvertError>)
    requires TypeOf(v).Set?
    ensures r == SetConverted(v, t, render)
  {
    match KindOf(t)
    case KString =>
      r := Success(StringV(render(v)));
    case KList =>
      r := Lift(NewListValue(ElementType(v), Items(v)));
    case KTuple =>
      var tys := BuildTupleTypes(Items(v), ElementType(v));
      r := Lift(NewTupleValue(tys, Items(v)));
    case _ =>
      r := Failure(NotConvertible(KSet, t));
  }

  /** The loop of `maps.Values`: the attribute types, in the order the map is visited. */
  method AttributeTypesInOrder(atys: map<string, Type>, order: seq<string>) returns (tys: seq<Type>)
    requires forall i :: 0 <= i < |order| ==> order[i] in atys
    ensures tys == ValuesInOrder(atys, order)
  {
    tys := [];
    for i := 0 to |order|
      invariant |tys| == i && forall j :: 0 <= j < i ==> tys[j] == atys[order[j]]
    {
      tys := tys + [atys[order[i]]];
    }
  }

  method ConvertObject(v: Value, t: Type, render: Value -> string, order: seq<string>) returns (r: Result<Value, ConvertError>)
    requires TypeOf(v).Object? && ObjectOrder(v, order)
    ensures r == ObjectConverted(v, t, render, order)
  {
    match KindOf(t)
    case KString =>
      r := Success(StringV(render(v)));
    case KMap =>
      var tys := AttributeTypesInOrder(AttributeTypes(v), order);
      var c := CollapseTypes(tys);
      if c.Failure? {
        return Failure(Uncollapsible(KObject, KMap, c.error));
      }
      r := Lift(NewMapValue(ElemOr(c.value), Entries(v), order));
    case _ =>
      r := Failure(NotConvertible(KObject, t));
  }

  method ConvertMap(v: Value, t: Type, render: Value -> string) returns (r: Result<Value, ConvertError>)
    requires TypeOf(v).Map?
    ensures r == MapConverted(v, t, render)
  {
    match KindOf(t)
    case KString =>
      r := Success(StringV(render(v)));
    case KObject =>
      var elements := Entries(v);
      var atys := UniformAttributeTypes(elements.Keys, ElementType(v));
      r := Lift(NewObjectValue(atys, elements));
    case _ =>
      r := Failure(NotConvertible(KMap, t));
  }

  /** The attribute types of the object a map converts to: every key of the map, all with the map's element type. */
  method UniformAttributeTypes(keys: set<string>, e: Type) returns (atys: map<string, Type>)
    ensures atys == UniformAttrs(keys, e)
  {
    atys := map[];
    var rest := keys;
    while rest != {}
      invariant rest <= keys
      invariant atys.Keys == keys - rest
      invariant forall k :: k in atys ==> atys[k] == e
      decreases |rest|
    {
      var k :| k in rest;
      atys := atys[k := e];
      rest := rest - {k};
    }
  }

  /** `Convert(val, typ)`. */
  method ConvertValue(v: Value, t: Type, render: Value -> string, order: seq<string>) returns (r: Result<Value, ConvertError>)
    requires ObjectOrder(v, order)
    ensures r == Converted(v, t, render, order)
  {
    var ty := TypeOf(v);
    if ty == t {
      return Success(v);
    }
    if t == Dynamic {
      return Success(NewDynamicValue(v));
    }
    match ty
    case Bool =>
      DispatchBool(v, t, render, order);
      r := BoolConverted(v, t);
    case Number =>
      DispatchNumber(v, t, render, order);
      r := NumberConverted(v, t);
    case String =>
      DispatchString(v, t, render, order);
      r := StringConverted(v, t, render);
    case Tuple(_) =>
      DispatchTuple(v, t, render, order);
      r := ConvertTuple(v, t, render);
    case List(_) =>
      DispatchList(v, t, render, order);
      r := ConvertList(v, t, render);
    case Set(_) =>
      DispatchSet(v, t, render, order);
      r := ConvertSet(v, t, render);
    case Object(_) =>
      DispatchObject(v, t, render, order);
      r := ConvertObject(v, t, render, order);
    case Map(_) =>
      DispatchMap(v, t, render, order);
      r := ConvertMap(v, t, render);
    case Dynamic =>
      DispatchDynamic(v, t, render, order);
      r := Failure(UnknownConversion(ty, t));
  }
}
