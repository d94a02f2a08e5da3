/**
 * The plugin framework's collection constructors (`basetypes.NewListValue`,
 * `NewSetValue`, `NewTupleValue`, `NewMapValue`, `NewObjectValue`) as the
 * converters use them: each checks, with deep type equality, that every
 * element has the declared type and reports one error diagnostic per
 * element that does not.
 */
module Framework {
  import opened Wrappers
  import opened Types
  import opened Values
  import opened Helpers

  /** What a constructor's diagnostic describes. */
  datatype Detail =
    | ListElementType(index: nat, expected: Type, given: Type)
    | SetElementType(index: nat, expected: Type, given: Type)
    | MapElementType(key: string, expected: Type, given: Type)
    | TupleLength(expectedTypes: seq<Option<Type>>, givenTypes: seq<Type>)
    | TupleElementType(index: nat, declared: Option<Type>, given: Type)
    | ObjectAttributes(expectedAttrs: map<string, Type>, givenAttrs: map<string, Type>)

  predicate AllErrors(ds: seq<Diagnostic<Detail>>) {
    forall i :: 0 <= i < |ds| ==> ds[i].severity == SevError
  }

  /** The positions at or after `from` whose element is not of type `e`, in order. */
  function Mismatches(e: Type, items: seq<Value>, from: nat): (r: seq<nat>)
    requires from <= |items|
    ensures forall j :: 0 <= j < |r| ==> from <= r[j] < |items| && TypeOf(items[r[j]]) != e
    ensures |r| == 0 <==> forall i :: from <= i < |items| ==> TypeOf(items[i]) == e
    ensures |r| > 0 ==> forall i :: from <= i < r[0] ==> TypeOf(items[i]) == e
    decreases |items| - from
  {
    if from == |items| then []
    else if TypeOf(items[from]) != e then [from] + Mismatches(e, items, from + 1)
    else Mismatches(e, items, from + 1)
  }

  /** The diagnostics of `NewListValue(e, items)` (or of `NewSetValue` when `isSet` holds). */
  function ElementDiagnostics(e: Type, items: seq<Value>, isSet: bool): (ds: seq<Diagnostic<Detail>>)
    ensures AllErrors(ds)
    ensures |ds| == 0 <==> forall i :: 0 <= i < |items| ==> TypeOf(items[i]) == e
  {
    var bad := Mismatches(e, items, 0);
    seq(|bad|, j requires 0 <= j < |bad| =>
      Diagnostic(SevError,
        if isSet then SetElementType(bad[j], e, TypeOf(items[bad[j]]))
        else ListElementType(bad[j], e, TypeOf(items[bad[j]]))))
  }

  /**
   * `NewListValue(e, items)` followed by `DiagnosticsToError`: the list when
   * every element has type `e`, otherwise the first offending position and
   * the number of offending elements.
   */
  function NewListValue(e: Type, items: seq<Value>): (r: Result<Value, DiagError<Detail>>)
    ensures r.Success? <==> forall i :: 0 <= i < |items| ==> TypeOf(items[i]) == e
    ensures r.Success? ==> r.value == ListV(e, items)
    ensures r.Failure? ==>
      exists i :: 0 <= i < |items| && r.error.detail == ListElementType(i, e, TypeOf(items[i]))
        && TypeOf(items[i]) != e && forall j :: 0 <= j < i ==> TypeOf(items[j]) == e
  {
    var ds := ElementDiagnostics(e, items, false);
    DiagnosticsResultFirst(ListV(e, items), ds);
    DiagnosticsResult(ListV(e, items), ds)
  }

  /** `NewSetValue(e, items)` followed by `DiagnosticsToError`; the framework keeps the elements as given. */
  function NewSetValue(e: Type, items: seq<Value>): (r: Result<Value, DiagError<Detail>>)
    ensures r.Success? <==> forall i :: 0 <= i < |items| ==> TypeOf(items[i]) == e
    ensures r.Success? ==> r.value == SetV(e, items)
    ensures r.Failure? ==>
      exists i :: 0 <= i < |items| && r.error.detail == SetElementType(i, e, TypeOf(items[i]))
        && TypeOf(items[i]) != e && forall j :: 0 <= j < i ==> TypeOf(items[j]) == e
  {
    var ds := ElementDiagnostics(e, items, true);
    DiagnosticsResultFirst(SetV(e, items), ds);
    DiagnosticsResult(SetV(e, items), ds)
  }

  function TypesOf(items: seq<Value>): (ts: seq<Type>)
    ensures |ts| == |items| && forall i :: 0 <= i < |items| ==> ts[i] == TypeOf(items[i])
  {
    seq(|items|, i requires 0 <= i < |items| => TypeOf(items[i]))
  }

  /**
   * `NewTupleValue(tys, items)` followed by `DiagnosticsToError`. A type list
   * of another length than the elements is one error; otherwise each element
   * must have its type. A `None` entry stands for a nil `attr.Type`; the
   * callers modelled here never let one reach the per-element comparison.
   */
  function NewTupleValue(tys: seq<Option<Type>>, items: seq<Value>): (r: Result<Value, DiagError<Detail>>)
    ensures r.Success? <==> |tys| == |items| && forall i :: 0 <= i < |items| ==> tys[i] == Some(TypeOf(items[i]))
    ensures r.Success? ==> r.value == TupleV(TypesOf(items), items)
    ensures |tys| != |items| ==> r == Failure(DiagFailure(TupleLength(tys, TypesOf(items)), 1))
  {
    if |tys| != |items| then
      var ds := [Diagnostic(SevError, TupleLength(tys, TypesOf(items)))];
      DiagnosticsResultFirst(TupleV(TypesOf(items), items), ds);
      DiagnosticsResult(TupleV(TypesOf(items), items), ds)
    else
      var ds := TupleDiagnostics(tys, items, 0);
      DiagnosticsResultFirst(TupleV(TypesOf(items), items), ds);
      DiagnosticsResult(TupleV(TypesOf(items), items), ds)
  }

  /** One diagnostic per position at or after `from` whose element does not have its declared type. */
  function TupleDiagnostics(tys: seq<Option<Type>>, items: seq<Value>, from: nat): (ds: seq<Diagnostic<Detail>>)
    requires |tys| == |items| && from <= |items|
    ensures AllErrors(ds)
    ensures |ds| == 0 <==> forall i :: from <= i < |items| ==> tys[i] == Some(TypeOf(items[i]))
    decreases |items| - from
  {
    if from == |items| then []
    else
      var rest := TupleDiagnostics(tys, items, from + 1);
      if tys[from] != Some(TypeOf(items[from])) then
        [Diagnostic(SevError, TupleElementType(from, tys[from], TypeOf(items[from])))] + rest
      else rest
  }

  /** The keys of `order`, from position `from` on, whose element is present and not of type `e`. */
  function KeyMismatches(e: Type, elements: map<string, Value>, order: seq<string>, from: nat): (r: seq<string>)
    requires from <= |order|
    ensures forall j :: 0 <= j < |r| ==> r[j] in elements && TypeOf(elements[r[j]]) != e
    ensures |r| == 0 <==> forall i :: from <= i < |order| && order[i] in elements ==> TypeOf(elements[order[i]]) == e
    decreases |order| - from
  {
    if from == |order| then []
    else if order[from] in elements && TypeOf(elements[order[from]]) != e then
      [order[from]] + KeyMismatches(e, elements, order, from + 1)
    else KeyMismatches(e, elements, order, from + 1)
  }

  /**
   * `NewMapValue(e, elements)` followed by `DiagnosticsToError`, visiting
   * the keys in `order` (Go's map iteration order, which must visit every
   * key of `elements`).
   */
  function NewMapValue(e: Type, elements: map<string, Value>, order: seq<string>): (r: Result<Value, DiagError<Detail>>)
    requires forall k :: k in elements ==> k in order
    ensures r.Success? <==> forall k :: k in elements ==> TypeOf(elements[k]) == e
    ensures r.Success? ==> r.value == MapV(e, elements)
    ensures r.Failure? ==> exists k :: k in elements && r.error.detail == MapElementType(k, e, TypeOf(elements[k])) && TypeOf(elements[k]) != e
  {
    var bad := KeyMismatches(e, elements, order, 0);
    var ds := seq(|bad|, j requires 0 <= j < |bad| => Diagnostic(SevError, MapElementType(bad[j], e, TypeOf(elements[bad[j]]))));
    DiagnosticsResultFirst(MapV(e, elements), ds);
    assert |ds| == 0 <==> forall k :: k in elements ==> TypeOf(elements[k]) == e by {
      if |ds| == 0 {
        forall k | k in elements
          ensures TypeOf(elements[k]) == e
        {
          var i :| 0 <= i < |order| && order[i] == k;
        }
      }
    }
    DiagnosticsResult(MapV(e, elements), ds)
  }

  /**
   * `NewObjectValue(atys, attrs)` followed by `DiagnosticsToError`: every
   * declared attribute must be present with its type, and no other may be.
   * One diagnostic is reported per missing, mistyped or extra attribute;
   * which of them Go's map order reports first is kept abstract.
   */
  function NewObjectValue(atys: map<string, Type>, attrs: map<string, Value>): (r: Result<Value, DiagError<Detail>>)
    ensures r.Success? <==> attrs.Keys == atys.Keys && forall k :: k in attrs ==> TypeOf(attrs[k]) == atys[k]
    ensures r.Success? ==> r.value == ObjectV(atys, attrs)
  {
    if attrs.Keys == atys.Keys && forall k :: k in attrs ==> TypeOf(attrs[k]) == atys[k] then
      Success(ObjectV(atys, attrs))
    else
      var missing := atys.Keys - attrs.Keys;
      var extra := attrs.Keys - atys.Keys;
      var wrong := set k | k in attrs && k in atys && TypeOf(attrs[k]) != atys[k];
      var given := map k | k in attrs :: TypeOf(attrs[k]);
      Failure(DiagFailure(ObjectAttributes(atys, given), |missing| + |wrong| + |extra|))
  }
}
