/**
 * tftypes/tfgoja/from_tf.go: `FromTfValue`, which hands a Terraform value
 * to the script engine.
 *
 * Unknown values are refused and null values become the script `null`.
 * Objects and maps become fresh script objects, one data property per
 * attribute; everything else goes through the reflection helper, which
 * unwraps dynamic values, passes booleans and strings through, turns
 * numbers into integers or floats and lists, sets and tuples into arrays.
 * The first element that fails aborts the conversion, and the error names
 * where it was found.
 *
 * Go walks a map in an order of its own choosing; the model takes that
 * choice as a parameter `order`, a visiting order for each map.
 */
module FromTf {
  import opened Wrappers
  import opened Types
  import opened Values

  /** A script value, as far as a converted Terraform value can be one. */
  datatype JsValue =
    | JsNull
    | JsBool(b: bool)
    /** An `int64`, which the engine keeps as an integer. */
    | JsInt(n: int)
    /** The `float64` nearest to the number; floating point is kept opaque. */
    | JsFloat(approximates: Number)
    | JsString(s: string)
    | JsArray(elems: seq<JsValue>)
    /** An object: its own properties in insertion order, and their values. */
    | JsObject(keys: seq<string>, props: map<string, JsValue>)

  /** Where a failing element sat: `list[i]`, `set[i]`, `tuple[i]`, `object[k]` or `map[k]`. */
  datatype Step =
    | ListIndex(i: nat)
    | SetIndex(i: nat)
    | TupleIndex(i: nat)
    | ObjectKey(k: string)
    | MapKey(k: string)

  datatype FromTfError =
    /** `ErrUnknownValue`. */
    | UnknownValue
    /** `ErrUnknownType`, with the value the reflection helper has no case for. */
    | UnknownType(v: Value)
    /** `ErrConversionFailure` wrapping the error of one element. */
    | ConversionFailure(at: Step, cause: FromTfError)
    /**
     * A nil dereference: the number of a null or unknown number value
     * behind a dynamic wrapper, or the underlying value of a null or
     * unknown dynamic value behind another one.
     */
    | NilDereference

  /** The positions the error message lists, outermost first. */
  function ErrorPath(e: FromTfError): (p: seq<Step>) {
    match e
    case ConversionFailure(s, cause) => [s] + ErrorPath(cause)
    case _ => []
  }

  /** The error at the end of the path. */
  function RootCause(e: FromTfError): (c: FromTfError)
    ensures !c.ConversionFailure?
  {
    match e
    case ConversionFailure(_, cause) => RootCause(cause)
    case _ => e
  }

  /** Go's choice of visiting order for every map the conversion walks. */
  ghost predicate MapOrders(order: map<string, Value> -> seq<string>) {
    forall m: map<string, Value> :: IsKeyOrder(order(m), m.Keys)
  }

  datatype SeqKind = SList | SSet | STuple

  function StepAt(kind: SeqKind, i: nat): Step {
    match kind
    case SList => ListIndex(i)
    case SSet => SetIndex(i)
    case STuple => TupleIndex(i)
  }

  function SeqKindOf(t: Type): SeqKind
    requires t.List? || t.Set? || t.Tuple?
  {
    if t.List? then SList else if t.Set? then SSet else STuple
  }

  // ----- what the conversion returns -----

  /** `FromTfValue(v)`. */
  function Converted(v: Value, order: map<string, Value> -> seq<string>): Result<JsValue, FromTfError>
    requires MapOrders(order)
    decreases v, 2
  {
    if v.Unknown? then Failure(UnknownValue)
    else if v.Null? then Success(JsNull)
    else if TypeOf(v).Object? || TypeOf(v).Map? then ObjectConverted(v, order)
    else Reflected(v, order)
  }

  /** `fromTfValueReflect(v)`: no null or unknown check of its own, and no case for objects or maps. */
  function Reflected(v: Value, order: map<string, Value> -> seq<string>): Result<JsValue, FromTfError>
    requires MapOrders(order)
    decreases v, 1
  {
    match TypeOf(v)
    case Dynamic =>
      if v.DynamicV? then Reflected(v.inner, order) else Failure(NilDereference)
    case Bool => Success(JsBool(BoolPayload(v)))
    case String => Success(JsString(StringPayload(v)))
    case Number =>
      (match NumberPayload(v)
       case None => Failure(NilDereference)
       case Some(x) => Success(if IsExactInt64(x) then JsInt(x.n) else JsFloat(x)))
    case List(_) => ItemsFold(ElementResults(v, order), SList, 0, [])
    case Set(_) => ItemsFold(ElementResults(v, order), SSet, 0, [])
    case Tuple(_) => ItemsFold(ElementResults(v, order), STuple, 0, [])
    case _ => Failure(UnknownType(v))
  }

  /** What `FromTfValue` makes of each element of a list, set or tuple. */
  function ElementResults(v: Value, order: map<string, Value> -> seq<string>): (rs: seq<Result<JsValue, FromTfError>>)
    requires MapOrders(order)
    ensures |rs| == |Items(v)|
    decreases v, 0
  {
    seq(|Items(v)|, i requires 0 <= i < |Items(v)| => Converted(Items(v)[i], order))
  }

  /** The element loop from position `i` on, over the elements' results `rs`, with `acc` converted so far. */
  function ItemsFold(rs: seq<Result<JsValue, FromTfError>>, kind: SeqKind, i: nat, acc: seq<JsValue>): (r: Result<JsValue, FromTfError>)
    requires i <= |rs|
    ensures r.Success? ==> r.value.JsArray?
    decreases |rs| - i
  {
    if i == |rs| then Success(JsArray(acc))
    else
      match rs[i]
      case Failure(e) => Failure(ConversionFailure(StepAt(kind, i), e))
      case Success(j) => ItemsFold(rs, kind, i + 1, acc + [j])
  }

  /**
   * `fromTfValueObject(v)`: one property per attribute or element, defined
   * in Go's visiting order. Its own "should be map or object" error is
   * unreachable from `FromTfValue`.
   */
  function ObjectConverted(v: Value, order: map<string, Value> -> seq<string>): Result<JsValue, FromTfError>
    requires MapOrders(order)
    decreases v, 1
  {
    if TypeOf(v).Object? || TypeOf(v).Map? then
      PropsFold(order(Entries(v)), PropertyResults(v, order), TypeOf(v).Object?, 0, map[])
    else Failure(UnknownType(v))
  }

  /** What `FromTfValue` makes of each attribute or element, in Go's visiting order. */
  function PropertyResults(v: Value, order: map<string, Value> -> seq<string>): (rs: seq<Result<JsValue, FromTfError>>)
    requires MapOrders(order)
    ensures |rs| == |order(Entries(v))|
    decreases v, 0
  {
    var keys := order(Entries(v));
    assert IsKeyOrder(keys, Entries(v).Keys);
    seq(|keys|, j requires 0 <= j < |keys| => Converted(Entries(v)[keys[j]], order))
  }

  function KeyStep(isObject: bool, k: string): Step {
    if isObject then ObjectKey(k) else MapKey(k)
  }

  /** The property loop from position `i` of the visiting order `keys` on, over their results `rs`, with `acc` defined so far. */
  function PropsFold(keys: seq<string>, rs: seq<Result<JsValue, FromTfError>>, isObject: bool, i: nat, acc: map<string, JsValue>)
    : (r: Result<JsValue, FromTfError>)
    requires |rs| == |keys| && i <= |keys|
    ensures r.Success? ==> r.value.JsObject? && r.value.keys == keys && acc.Keys <= r.value.props.Keys
    decreases |keys| - i
  {
    if i == |keys| then Success(JsObject(keys, acc))
    else
      match rs[i]
      case Failure(e) => Failure(ConversionFailure(KeyStep(isObject, keys[i]), e))
      case Success(j) => PropsFold(keys, rs, isObject, i + 1, acc[keys[i] := j])
  }

  // ----- what the conversion promises -----

  /**
   * The element loop succeeds exactly when every remaining element
   * converts; it then appends their conversions in order. Otherwise the
   * first element that fails decides the error, wrapped with its position.
   */
  lemma {:induction false} ItemsFoldResult(rs: seq<Result<JsValue, FromTfError>>, kind: SeqKind, i: nat, acc: seq<JsValue>)
    requires i <= |rs|
    ensures var r := ItemsFold(rs, kind, i, acc);
            && (r.Success? <==> forall j :: i <= j < |rs| ==> rs[j].Success?)
            && (r.Success? ==>
                  && r.value.JsArray? && |r.value.elems| == |acc| + |rs| - i && r.value.elems[..|acc|] == acc
                  && forall j :: i <= j < |rs| ==> r.value.elems[|acc| + j - i] == rs[j].value)
            && (r.Failure? ==>
                  exists f :: i <= f < |rs| && rs[f].Failure? && (forall j :: i <= j < f ==> rs[j].Success?)
                    && r.error == ConversionFailure(StepAt(kind, f), rs[f].error))
    decreases |rs| - i
  {
    if i < |rs| && rs[i].Success? {
      var acc' := acc + [rs[i].value];
      ItemsFoldResult(rs, kind, i + 1, acc');
      var r := ItemsFold(rs, kind, i + 1, acc');
      if r.Success? {
        assert r.value.elems[..|acc|] == r.value.elems[..|acc'|][..|acc|];
      }
    }
  }

  /** The property loop succeeds exactly when every remaining property converts. */
  lemma {:induction false} PropsFoldSucceeds(keys: seq<string>, rs: seq<Result<JsValue, FromTfError>>, isObject: bool, i: nat, acc: map<string, JsValue>)
    requires |rs| == |keys| && i <= |keys|
    ensures PropsFold(keys, rs, isObject, i, acc).Success? <==> forall j :: i <= j < |keys| ==> rs[j].Success?
    decreases |keys| - i
  {
    if i < |keys| && rs[i].Success? {
      PropsFoldSucceeds(keys, rs, isObject, i + 1, acc[keys[i] := rs[i].value]);
    }
  }

  /** On success nothing is defined but the keys visited and the ones defined earlier. */
  lemma {:induction false} PropsFoldKeys(keys: seq<string>, rs: seq<Result<JsValue, FromTfError>>, isObject: bool, i: nat, acc: map<string, JsValue>)
    requires |rs| == |keys| && i <= |keys| && PropsFold(keys, rs, isObject, i, acc).Success?
    ensures forall k :: k in PropsFold(keys, rs, isObject, i, acc).value.props ==> k in acc || exists j :: i <= j < |keys| && keys[j] == k
    decreases |keys| - i
  {
    if i < |keys| {
      PropsFoldKeys(keys, rs, isObject, i + 1, acc[keys[i] := rs[i].value]);
    }
  }

  /** On success over distinct keys, each key visited holds its own result. */
  lemma {:induction false} PropsFoldValue(keys: seq<string>, rs: seq<Result<JsValue, FromTfError>>, isObject: bool, i: nat, acc: map<string, JsValue>)
    requires |rs| == |keys| && i <= |keys| && forall j :: i <= j < |keys| ==> rs[j].Success?
    requires forall a, b :: 0 <= a < b < |keys| ==> keys[a] != keys[b]
    ensures PropsFold(keys, rs, isObject, i, acc).Success?
    ensures var props := PropsFold(keys, rs, isObject, i, acc).value.props;
            forall j :: i <= j < |keys| ==> keys[j] in props && props[keys[j]] == rs[j].value
    decreases |keys| - i
  {
    PropsFoldSucceeds(keys, rs, isObject, i, acc);
    if i < |keys| {
      var acc' := acc[keys[i] := rs[i].value];
      PropsFoldValue(keys, rs, isObject, i + 1, acc');
      LaterSteps(keys, rs, isObject, i + 1, acc');
    }
  }

  /** On failure, the first key in the visiting order that fails decides the error. */
  lemma {:induction false} PropsFoldFailure(keys: seq<string>, rs: seq<Result<JsValue, FromTfError>>, isObject: bool, i: nat, acc: map<string, JsValue>)
    requires |rs| == |keys| && i <= |keys| && PropsFold(keys, rs, isObject, i, acc).Failure?
    ensures exists f :: i <= f < |keys| && rs[f].Failure? && (forall j :: i <= j < f ==> rs[j].Success?)
              && PropsFold(keys, rs, isObject, i, acc).error == ConversionFailure(KeyStep(isObject, keys[f]), rs[f].error)
    decreases |keys| - i
  {
    if rs[i].Success? {
      PropsFoldFailure(keys, rs, isObject, i + 1, acc[keys[i] := rs[i].value]);
    }
  }

  /** A key not visited from position `i` on keeps the value it had. */
  lemma {:induction false} LaterSteps(keys: seq<string>, rs: seq<Result<JsValue, FromTfError>>, isObject: bool, i: nat, acc: map<string, JsValue>)
    requires |rs| == |keys| && i <= |keys| && PropsFold(keys, rs, isObject, i, acc).Success?
    ensures forall k :: k in acc && (forall j :: i <= j < |keys| ==> keys[j] != k) ==>
              PropsFold(keys, rs, isObject, i, acc).value.props[k] == acc[k]
    decreases |keys| - i
  {
    if i < |keys| {
      LaterSteps(keys, rs, isObject, i + 1, acc[keys[i] := rs[i].value]);
    }
  }

  /** A reference definition of the values `FromTfValue` accepts. */
  ghost predicate Convertible(v: Value)
    decreases v, 1
  {
    match v
    case Unknown(_) => false
    case Null(_) => true
    case ListV(_, items) => forall i :: 0 <= i < |items| ==> Convertible(items[i])
    case SetV(_, items) => forall i :: 0 <= i < |items| ==> Convertible(items[i])
    case TupleV(_, items) => forall i :: 0 <= i < |items| ==> Convertible(items[i])
    case MapV(_, m) => forall k :: k in m ==> Convertible(m[k])
    case ObjectV(_, m) => forall k :: k in m ==> Convertible(m[k])
    case DynamicV(inner) => Reflectable(inner)
    case _ => true
  }

  /**
   * The values the reflection helper accepts: no object or map, no null or
   * unknown number or dynamic value, and, below a list, set or tuple, only
   * values `FromTfValue` accepts. A null or unknown list, set, tuple, bool
   * or string reads as its zero value.
   */
  ghost predicate Reflectable(v: Value)
    decreases v, 0
  {
    match v
    case DynamicV(inner) => Reflectable(inner)
    case Null(t) => t.Bool? || t.String? || t.List? || t.Set? || t.Tuple?
    case Unknown(t) => t.Bool? || t.String? || t.List? || t.Set? || t.Tuple?
    case ListV(_, items) => forall i :: 0 <= i < |items| ==> Convertible(items[i])
    case SetV(_, items) => forall i :: 0 <= i < |items| ==> Convertible(items[i])
    case TupleV(_, items) => forall i :: 0 <= i < |items| ==> Convertible(items[i])
    case MapV(_, _) => false
    case ObjectV(_, _) => false
    case _ => true
  }

  /** `FromTfValue` succeeds exactly on the convertible values. */
  lemma {:induction false} ConvertsIff(v: Value, order: map<string, Value> -> seq<string>)
    requires MapOrders(order)
    ensures Converted(v, order).Success? <==> Convertible(v)
    decreases v, 2
  {
    match v
    case ListV(_, _) => ReflectsIff(v, order);
    case SetV(_, _) => ReflectsIff(v, order);
    case TupleV(_, _) => ReflectsIff(v, order);
    case MapV(_, _) => PropsConvertIff(v, order);
    case ObjectV(_, _) => PropsConvertIff(v, order);
    case DynamicV(inner) => ReflectsIff(inner, order);
    case _ =>
  }

  /** The object branch of `ConvertsIff`. */
  lemma {:induction false} PropsConvertIff(v: Value, order: map<string, Value> -> seq<string>)
    requires MapOrders(order) && (v.MapV? || v.ObjectV?)
    ensures ObjectConverted(v, order).Success? <==> forall k :: k in Entries(v) ==> Convertible(Entries(v)[k])
    decreases v, 1
  {
    var m := Entries(v);
    var keys := order(m);
    var rs := PropertyResults(v, order);
    assert IsKeyOrder(keys, m.Keys);
    PropsFoldSucceeds(keys, rs, TypeOf(v).Object?, 0, map[]);
    forall k | k in m
      ensures Converted(m[k], order).Success? <==> Convertible(m[k])
    {
      ConvertsIff(m[k], order);
    }
    if forall j :: 0 <= j < |keys| ==> rs[j].Success? {
      forall k | k in m
        ensures Convertible(m[k])
      {
        var j :| 0 <= j < |keys| && keys[j] == k;
        assert rs[j].Success?;
      }
    }
  }

  /** The reflection helper succeeds exactly on the reflectable values. */
  lemma {:induction false} ReflectsIff(v: Value, order: map<string, Value> -> seq<string>)
    requires MapOrders(order)
    ensures Reflected(v, order).Success? <==> Reflectable(v)
    decreases v, 1
  {
    match v
    case DynamicV(inner) => ReflectsIff(inner, order);
    case ListV(_, _) => ItemsConvertIff(v, SList, order);
    case SetV(_, _) => ItemsConvertIff(v, SSet, order);
    case TupleV(_, _) => ItemsConvertIff(v, STuple, order);
    case _ =>
  }

  /** The element branch of `ReflectsIff`. */
  lemma {:induction false} ItemsConvertIff(v: Value, kind: SeqKind, order: map<string, Value> -> seq<string>)
    requires MapOrders(order)
    ensures ItemsFold(ElementResults(v, order), kind, 0, []).Success? <==> forall i :: 0 <= i < |Items(v)| ==> Convertible(Items(v)[i])
    decreases v, 0
  {
    var rs := ElementResults(v, order);
    ItemsFoldResult(rs, kind, 0, []);
    forall i | 0 <= i < |Items(v)|
      ensures rs[i].Success? <==> Convertible(Items(v)[i])
    {
      ConvertsIff(Items(v)[i], order);
    }
  }

  /**
   * An unknown value is refused and a null one is the script `null`;
   * booleans and strings pass through; a number that is an exact `int64`
   * is an integer and any other number a float.
   */
  lemma PrimitivesConverted(v: Value, order: map<string, Value> -> seq<string>)
    requires MapOrders(order)
    ensures v.Unknown? ==> Converted(v, order) == Failure(UnknownValue)
    ensures v.Null? ==> Converted(v, order) == Success(JsNull)
    ensures v.BoolV? ==> Converted(v, order) == Success(JsBool(v.b))
    ensures v.StringV? ==> Converted(v, order) == Success(JsString(v.s))
    ensures v.NumberV? && IsExactInt64(v.num) ==> Converted(v, order) == Success(JsInt(v.num.n))
    ensures v.NumberV? && !IsExactInt64(v.num) ==> Converted(v, order) == Success(JsFloat(v.num))
  {
  }

  /**
   * A list, set or tuple becomes an array of its converted elements, in
   * order, when every element converts; otherwise the first element that
   * fails aborts the conversion, its position wrapped around its error.
   */
  lemma SequenceToArray(v: Value, order: map<string, Value> -> seq<string>)
    requires MapOrders(order) && (v.ListV? || v.SetV? || v.TupleV?)
    ensures var r := Converted(v, order);
            && (r.Success? <==> forall i :: 0 <= i < |v.items| ==> Converted(v.items[i], order).Success?)
            && (r.Success? ==>
                  && r.value.JsArray? && |r.value.elems| == |v.items|
                  && forall i :: 0 <= i < |v.items| ==> r.value.elems[i] == Converted(v.items[i], order).value)
            && (r.Failure? ==>
                  exists f :: 0 <= f < |v.items| && Converted(v.items[f], order).Failure?
                    && (forall i :: 0 <= i < f ==> Converted(v.items[i], order).Success?)
                    && r.error == ConversionFailure(StepAt(SeqKindOf(TypeOf(v)), f), Converted(v.items[f], order).error))
  {
    SequenceSucceeds(v, order);
    SequenceFailure(v, order);
    ElementResultsAt(v, order);
  }

  lemma SequenceSucceeds(v: Value, order: map<string, Value> -> seq<string>)
    requires MapOrders(order) && (v.ListV? || v.SetV? || v.TupleV?)
    ensures var r := Converted(v, order);
            var rs := ElementResults(v, order);
            && (r.Success? <==> forall i :: 0 <= i < |rs| ==> rs[i].Success?)
            && (r.Success? ==>
                  && r.value.JsArray? && |r.value.elems| == |rs|
                  && forall i :: 0 <= i < |rs| ==> r.value.elems[i] == rs[i].value)
  {
    SequenceFold(v, order);
    ItemsFoldResult(ElementResults(v, order), SeqKindOf(TypeOf(v)), 0, []);
  }

  lemma SequenceFailure(v: Value, order: map<string, Value> -> seq<string>)
    requires MapOrders(order) && (v.ListV? || v.SetV? || v.TupleV?)
    ensures var r := Converted(v, order);
            var rs := ElementResults(v, order);
            r.Failure? ==>
              exists f :: 0 <= f < |rs| && rs[f].Failure? && (forall i :: 0 <= i < f ==> rs[i].Success?)
                && r.error == ConversionFailure(StepAt(SeqKindOf(TypeOf(v)), f), rs[f].error)
  {
    SequenceFold(v, order);
    ItemsFoldResult(ElementResults(v, order), SeqKindOf(TypeOf(v)), 0, []);
  }

  /** The results of the element loop are the conversions of the elements, in order. */
  lemma ElementResultsAt(v: Value, order: map<string, Value> -> seq<string>)
    requires MapOrders(order) && (v.ListV? || v.SetV? || v.TupleV?)
    ensures |ElementResults(v, order)| == |v.items|
    ensures forall i :: 0 <= i < |v.items| ==> ElementResults(v, order)[i] == Converted(v.items[i], order)
  {
  }

  /** A list, set or tuple converts by the element loop. */
  lemma SequenceFold(v: Value, order: map<string, Value> -> seq<string>)
    requires MapOrders(order) && (v.ListV? || v.SetV? || v.TupleV?)
    ensures Converted(v, order) == ItemsFold(ElementResults(v, order), SeqKindOf(TypeOf(v)), 0, [])
  {
  }

  /**
   * An object or a map becomes a script object with exactly its keys, each
   * holding its converted value, defined in Go's visiting order; an empty
   * one gives `{}`. Otherwise the first key in that order that fails aborts
   * the conversion, wrapped as `object[k]` or `map[k]`.
   */
  lemma ObjectToJsObject(v: Value, order: map<string, Value> -> seq<string>)
    requires MapOrders(order) && (v.ObjectV? || v.MapV?)
    ensures var r := Converted(v, order);
            var m := Entries(v);
            var keys := order(m);
            && (r.Success? <==> forall k :: k in m ==> Converted(m[k], order).Success?)
            && (r.Success? ==>
                  && r.value.JsObject? && r.value.keys == keys && r.value.props.Keys == m.Keys
                  && forall k :: k in m ==> r.value.props[k] == Converted(m[k], order).value)
            && (m == map[] ==> r == Success(JsObject([], map[])))
            && (r.Failure? ==>
                  exists f :: 0 <= f < |keys| && keys[f] in m && Converted(m[keys[f]], order).Failure?
                    && (forall j :: 0 <= j < f ==> keys[j] in m && Converted(m[keys[j]], order).Success?)
                    && r.error == ConversionFailure(KeyStep(v.ObjectV?, keys[f]), Converted(m[keys[f]], order).error))
  {
    ObjectSucceedsIff(v, order);
    ObjectValue(v, order);
    ObjectFailure(v, order);
    if Entries(v) == map[] {
      ObjectEmpty(v, order);
    }
  }

  /** The results of the property loop are the conversions of the values, key by key in the visiting order. */
  lemma PropertyResultsAt(v: Value, order: map<string, Value> -> seq<string>)
    requires MapOrders(order)
    ensures var m := Entries(v);
            var keys := order(m);
            && IsKeyOrder(keys, m.Keys)
            && forall j :: 0 <= j < |keys| ==> keys[j] in m && PropertyResults(v, order)[j] == Converted(m[keys[j]], order)
  {
    assert IsKeyOrder(order(Entries(v)), Entries(v).Keys);
  }

  lemma ObjectSucceedsIff(v: Value, order: map<string, Value> -> seq<string>)
    requires MapOrders(order) && (v.ObjectV? || v.MapV?)
    ensures Converted(v, order).Success? <==> forall k :: k in Entries(v) ==> Converted(Entries(v)[k], order).Success?
  {
    var m := Entries(v);
    var keys := order(m);
    var rs := PropertyResults(v, order);
    PropertyResultsAt(v, order);
    PropsFoldSucceeds(keys, rs, v.ObjectV?, 0, map[]);
    if forall j :: 0 <= j < |keys| ==> rs[j].Success? {
      forall k | k in m
        ensures Converted(m[k], order).Success?
      {
        var j :| 0 <= j < |keys| && keys[j] == k;
        assert rs[j].Success?;
      }
    }
  }

  lemma ObjectValue(v: Value, order: map<string, Value> -> seq<string>)
    requires MapOrders(order) && (v.ObjectV? || v.MapV?)
    ensures var r := Converted(v, order);
            var m := Entries(v);
            && (r.Success? ==>
                  && r.value.JsObject? && r.value.keys == order(m) && r.value.props.Keys == m.Keys
                  && forall k :: k in m ==> Converted(m[k], order).Success? && r.value.props[k] == Converted(m[k], order).value)
  {
    var m := Entries(v);
    var keys := order(m);
    var rs := PropertyResults(v, order);
    ObjectFold(v, order);
    var r := PropsFold(keys, rs, v.ObjectV?, 0, map[]);
    if r.Success? {
      PropertyResultsAt(v, order);
      PropsFoldSucceeds(keys, rs, v.ObjectV?, 0, map[]);
      PropsFoldValue(keys, rs, v.ObjectV?, 0, map[]);
      PropsFoldKeys(keys, rs, v.ObjectV?, 0, map[]);
      KeysOfOrder(keys, m.Keys, r.value.props);
      forall k | k in m
        ensures Converted(m[k], order).Success? && r.value.props[k] == Converted(m[k], order).value
      {
        var j :| 0 <= j < |keys| && keys[j] == k;
      }
    }
  }

  /** An empty object or map becomes `{}`. */
  lemma ObjectEmpty(v: Value, order: map<string, Value> -> seq<string>)
    requires MapOrders(order) && (v.ObjectV? || v.MapV?) && Entries(v) == map[]
    ensures Converted(v, order) == Success(JsObject([], map[]))
  {
    ObjectFold(v, order);
    PropertyResultsAt(v, order);
  }

  /** An object or a map converts by the property loop over Go's visiting order. */
  lemma ObjectFold(v: Value, order: map<string, Value> -> seq<string>)
    requires MapOrders(order) && (v.ObjectV? || v.MapV?)
    ensures Converted(v, order) == PropsFold(order(Entries(v)), PropertyResults(v, order), v.ObjectV?, 0, map[])
  {
  }

  /** A map whose keys are exactly those of a visiting order has the order's key set. */
  lemma KeysOfOrder<T>(keys: seq<string>, ks: set<string>, props: map<string, T>)
    requires IsKeyOrder(keys, ks)
    requires forall k :: k in props ==> exists j :: 0 <= j < |keys| && keys[j] == k
    requires forall j :: 0 <= j < |keys| ==> keys[j] in props
    ensures props.Keys == ks
  {
  }

  lemma ObjectFailure(v: Value, order: map<string, Value> -> seq<string>)
    requires MapOrders(order) && (v.ObjectV? || v.MapV?)
    ensures var r := Converted(v, order);
            var m := Entries(v);
            var keys := order(m);
            r.Failure? ==>
              exists f :: 0 <= f < |keys| && keys[f] in m && Converted(m[keys[f]], order).Failure?
                && (forall j :: 0 <= j < f ==> keys[j] in m && Converted(m[keys[j]], order).Success?)
                && r.error == ConversionFailure(KeyStep(v.ObjectV?, keys[f]), Converted(m[keys[f]], order).error)
  {
    var m := Entries(v);
    var keys := order(m);
    var rs := PropertyResults(v, order);
    PropertyResultsAt(v, order);
    if PropsFold(keys, rs, v.ObjectV?, 0, map[]).Failure? {
      PropsFoldFailure(keys, rs, v.ObjectV?, 0, map[]);
    }
  }

  /**
   * A dynamic value converts as the reflection helper sees its underlying
   * value; since that helper has no object or map case, a dynamic object or
   * map (known, null or unknown) ends in the unknown-type error.
   */
  lemma DynamicUnwrapped(v: Value, order: map<string, Value> -> seq<string>)
    requires MapOrders(order) && v.DynamicV?
    ensures Converted(v, order) == Reflected(v.inner, order)
    ensures TypeOf(v.inner).Object? || TypeOf(v.inner).Map? ==> Converted(v, order) == Failure(UnknownType(v.inner))
  {
  }

  // ----- the implementation: loops over elements and properties -----

  /** `FromTfValue(ctx, v, js)`. */
  method FromTfValue(v: Value, order: map<string, Value> -> seq<string>) returns (r: Result<JsValue, FromTfError>)
    requires MapOrders(order)
    ensures r == Converted(v, order)
    decreases v, 2
  {
    var ty := TypeOf(v);
    if v.Unknown? {
      return Failure(UnknownValue);
    }
    if v.Null? {
      return Success(JsNull);
    }
    if ty.Object? || ty.Map? {
      r := FromTfValueObject(v, order);
      return;
    }
    r := FromTfValueReflect(v, order);
  }

  /** `fromTfValueReflect(ctx, v, js)`. */
  method FromTfValueReflect(v: Value, order: map<string, Value> -> seq<string>) returns (r: Result<JsValue, FromTfError>)
    requires MapOrders(order)
    ensures r == Reflected(v, order)
    decreases v, 1
  {
    var ty := TypeOf(v);
    if ty == Dynamic {
      if !v.DynamicV? {
        return Failure(NilDereference);
      }
      r := FromTfValueReflect(v.inner, order);
      return;
    }
    if ty == Bool {
      return Success(JsBool(BoolPayload(v)));
    }
    if ty == String {
      return Success(JsString(StringPayload(v)));
    }
    if ty == Number {
      var raw := NumberPayload(v);
      if raw.None? {
        return Failure(NilDereference);
      }
      if IsExactInt64(raw.value) {
        return Success(JsInt(raw.value.n));
      }
      return Success(JsFloat(raw.value));
    }
    if ty.List? || ty.Set? || ty.Tuple? {
      r := FromTfElements(v, SeqKindOf(ty), order);
      return;
    }
    return Failure(UnknownType(v));
  }

  /** The element loop shared by the list, set and tuple branches of `fromTfValueReflect`. */
  method FromTfElements(v: Value, kind: SeqKind, order: map<string, Value> -> seq<string>) returns (r: Result<JsValue, FromTfError>)
    requires MapOrders(order)
    ensures r == ItemsFold(ElementResults(v, order), kind, 0, [])
    decreases v, 0
  {
    var elements := Items(v);
    ghost var rs := ElementResults(v, order);
    var raw: seq<JsValue> := [];
    for i := 0 to |elements|
      invariant ItemsFold(rs, kind, i, raw) == ItemsFold(rs, kind, 0, [])
    {
      var el := FromTfValue(elements[i], order);
      assert el == rs[i];
      if el.Failure? {
        return Failure(ConversionFailure(StepAt(kind, i), el.error));
      }
      raw := raw + [el.value];
    }
    return Success(JsArray(raw));
  }

  /** `fromTfValueObject(ctx, v, js)`: defines the properties on a fresh object in Go's visiting order. */
  method FromTfValueObject(v: Value, order: map<string, Value> -> seq<string>) returns (r: Result<JsValue, FromTfError>)
    requires MapOrders(order)
    ensures r == ObjectConverted(v, order)
    decreases v, 1
  {
    var ty := TypeOf(v);
    if !(ty.Object? || ty.Map?) {
      return Failure(UnknownType(v));
    }
    var attrs := Entries(v);
    var keys := order(attrs);
    assert IsKeyOrder(keys, attrs.Keys);
    ghost var rs := PropertyResults(v, order);
    var ret: map<string, JsValue> := map[];
    for i := 0 to |keys|
      invariant PropsFold(keys, rs, ty.Object?, i, ret) == PropsFold(keys, rs, ty.Object?, 0, map[])
    {
      var k := keys[i];
      var el := FromTfValue(attrs[k], order);
      assert el == rs[i];
      if el.Failure? {
        return Failure(ConversionFailure(KeyStep(ty.Object?, k), el.error));
      }
      ret := ret[k := el.value];
    }
    return Success(JsObject(keys, ret));
  }
}
