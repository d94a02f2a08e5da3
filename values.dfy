/**
 * Terraform values as the plugin framework's `basetypes` represent them:
 * null and unknown values of a given type, known primitives, the five
 * collection kinds and the dynamic wrapper.
 */
module Values {
  import opened Wrappers
  import opened Types
  import Text

  /**
   * A Terraform number (a `big.Float`).
   * `Int(n)` is a number holding an integer, exactly.
   * `Frac(text, withinTolerance)` is any other number: `text` is its
   * `big.Float` rendering (`%g` with ten significant digits) and
   * `withinTolerance` is the outcome `|float64(x)| < 10^-accuracy` of its
   * conversion to `float64`, two facts of floating point the model keeps
   * opaque.
   */
  datatype Number = Int(n: int) | Frac(text: string, withinTolerance: bool)

  const Int64Min: int := -0x8000_0000_0000_0000
  const Int64Max: int := 0x7FFF_FFFF_FFFF_FFFF

  predicate InInt64(n: int) {
    Int64Min <= n <= Int64Max
  }

  /** `big.Float.Int64()` reports `big.Exact`: the number is an integer that fits in 64 bits. */
  predicate IsExactInt64(x: Number) {
    x.Int? && InInt64(x.n)
  }

  /** `big.Float.String()`; integers are written as plain decimal text. */
  function NumberText(x: Number): string {
    match x
    case Int(n) => Text.DecimalText(n)
    case Frac(text, _) => text
  }

  datatype Value =
    | Null(ty: Type)
    | Unknown(ty: Type)
    | BoolV(b: bool)
    | NumberV(num: Number)
    | StringV(s: string)
    | ListV(elem: Type, items: seq<Value>)
    | SetV(elem: Type, items: seq<Value>)
    | TupleV(elemTypes: seq<Type>, items: seq<Value>)
    | MapV(elem: Type, entries: map<string, Value>)
    | ObjectV(attrTypes: map<string, Type>, attrs: map<string, Value>)
    | DynamicV(inner: Value)

  /** `Value.Type(ctx)`. A dynamic null or unknown is `Null(Dynamic)` / `Unknown(Dynamic)`. */
  function TypeOf(v: Value): Type {
    match v
    case Null(t) => t
    case Unknown(t) => t
    case BoolV(_) => Bool
    case NumberV(_) => Number
    case StringV(_) => String
    case ListV(e, _) => List(e)
    case SetV(e, _) => Set(e)
    case TupleV(ts, _) => Tuple(ts)
    case MapV(e, _) => Map(e)
    case ObjectV(ats, _) => Object(ats)
    case DynamicV(_) => Dynamic
  }

  /** The framework's constructors only build values whose parts have the declared types. */
  predicate WellTyped(v: Value)
    decreases v
  {
    match v
    case ListV(e, items) => forall i :: 0 <= i < |items| ==> TypeOf(items[i]) == e && WellTyped(items[i])
    case SetV(e, items) => forall i :: 0 <= i < |items| ==> TypeOf(items[i]) == e && WellTyped(items[i])
    case TupleV(ts, items) =>
      |ts| == |items| && forall i :: 0 <= i < |items| ==> TypeOf(items[i]) == ts[i] && WellTyped(items[i])
    case MapV(e, entries) => forall k :: k in entries ==> TypeOf(entries[k]) == e && WellTyped(entries[k])
    case ObjectV(ats, attrs) =>
      attrs.Keys == ats.Keys && forall k :: k in attrs ==> TypeOf(attrs[k]) == ats[k] && WellTyped(attrs[k])
    case DynamicV(inner) => WellTyped(inner)
    case _ => true
  }

  predicate IsNull(v: Value) { v.Null? }
  predicate IsUnknown(v: Value) { v.Unknown? }

  /** `ValueBool()`: false for a null or unknown bool, as Go's zero value. */
  function BoolPayload(v: Value): bool {
    if v.BoolV? then v.b else false
  }

  /** `ValueString()`: empty for a null or unknown string. */
  function StringPayload(v: Value): string {
    if v.StringV? then v.s else ""
  }

  /** `ValueBigFloat()`: a nil pointer for a null or unknown number. */
  function NumberPayload(v: Value): Option<Number> {
    if v.NumberV? then Some(v.num) else None
  }

  /** `Elements()` of a list, set or tuple: empty for a null or unknown one. */
  function Items(v: Value): seq<Value> {
    match v
    case ListV(_, items) => items
    case SetV(_, items) => items
    case TupleV(_, items) => items
    case _ => []
  }

  /** `Elements()` of a map, `Attributes()` of an object: empty for a null or unknown one. */
  function Entries(v: Value): map<string, Value> {
    match v
    case MapV(_, entries) => entries
    case ObjectV(_, attrs) => attrs
    case _ => map[]
  }

  /** `ElementType(ctx)` of a list, set or map, read from its type so that it also answers for null values. */
  function ElementType(v: Value): Type
    requires TypeOf(v).List? || TypeOf(v).Set? || TypeOf(v).Map?
  {
    TypeOf(v).elem
  }

  /** `ElementTypes(ctx)` of a tuple, read from its type. */
  function ElementTypes(v: Value): seq<Type>
    requires TypeOf(v).Tuple?
  {
    TypeOf(v).elems
  }

  /** `AttributeTypes(ctx)` of an object, read from its type. */
  function AttributeTypes(v: Value): map<string, Type>
    requires TypeOf(v).Object?
  {
    TypeOf(v).attrs
  }

  /**
   * An order in which Go's `range` over a map may visit its keys: every key
   * exactly once. The runtime picks a different order from run to run, so
   * the model takes the order as a parameter wherever it shows.
   */
  predicate IsKeyOrder(order: seq<string>, keys: set<string>) {
    (forall i :: 0 <= i < |order| ==> order[i] in keys)
    && (forall k :: k in keys ==> k in order)
    && (forall i, j :: 0 <= i < j < |order| ==> order[i] != order[j])
  }

  /** Some order of the keys, picked as freely as Go's runtime picks one. */
  method KeyOrder(keys: set<string>) returns (order: seq<string>)
    ensures IsKeyOrder(order, keys)
  {
    order := [];
    var rest := keys;
    while rest != {}
      invariant rest <= keys
      invariant forall i :: 0 <= i < |order| ==> order[i] in keys - rest
      invariant forall k :: k in keys - rest ==> k in order
      invariant forall i, j :: 0 <= i < j < |order| ==> order[i] != order[j]
      decreases |rest|
    {
      var k :| k in rest;
      order := order + [k];
      rest := rest - {k};
    }
  }

  /** `NewDynamicValue`: wraps any value, including a null one. */
  function NewDynamicValue(v: Value): (r: Value)
    ensures TypeOf(r) == Dynamic && (WellTyped(v) ==> WellTyped(r))
  {
    DynamicV(v)
  }
}
