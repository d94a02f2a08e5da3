/**
 * tftypes/helpers.go: collapsing a list of types into one, and turning the
 * framework's diagnostics into a single error.
 */
module Helpers {
  import opened Wrappers
  import opened Types

  /** "all elements must be of the same type (first =/= other)". */
  datatype CollapseError = NotSameType(first: Type, other: Type)

  /**
   * The first position at or after `i` whose type is not shallow-equal to
   * `tys[0]`, if there is one.
   */
  function FirstMismatch(tys: seq<Type>, i: nat): (r: Option<nat>)
    requires 1 <= i <= |tys|
    ensures r.Some? ==> i <= r.value < |tys| && !TypeEqual(tys[r.value], tys[0])
    ensures r.Some? ==> forall j :: i <= j < r.value ==> TypeEqual(tys[j], tys[0])
    ensures r.None? <==> forall j :: i <= j < |tys| ==> TypeEqual(tys[j], tys[0])
    decreases |tys| - i
  {
    if i == |tys| then None
    else if !TypeEqual(tys[i], tys[0]) then Some(i)
    else FirstMismatch(tys, i + 1)
  }

  /**
   * What `CollapseTypes` returns: no type for an empty list, the first type
   * when every later one has its kind, otherwise the first and the first
   * offending type.
   */
  function Collapse(tys: seq<Type>): Result<Option<Type>, CollapseError> {
    if |tys| == 0 then Success(None)
    else
      match FirstMismatch(tys, 1)
      case None => Success(Some(tys[0]))
      case Some(j) => Failure(NotSameType(tys[0], tys[j]))
  }

  /** The loop of `CollapseTypes`: remember the first type, compare every later one against it. */
  method CollapseTypes(tys: seq<Type>) returns (r: Result<Option<Type>, CollapseError>)
    ensures r == Collapse(tys)
  {
    var cty: Option<Type> := None;
    var i := 0;
    while i < |tys|
      invariant 0 <= i <= |tys|
      invariant cty == (if i == 0 then None else Some(tys[0]))
      invariant forall j :: 1 <= j < i ==> TypeEqual(tys[j], tys[0])
    {
      var ty := tys[i];
      if cty.None? {
        cty := Some(ty);
      } else if !TypeEqual(ty, cty.value) {
        return Failure(NotSameType(cty.value, ty));
      }
      i := i + 1;
    }
    return Success(cty);
  }

  /** Collapsing succeeds with a type exactly when the list is non-empty and every type shares the first one's kind. */
  lemma CollapseSucceedsIff(tys: seq<Type>, t: Type)
    ensures Collapse(tys) == Success(Some(t)) <==>
            (|tys| > 0 && t == tys[0] && forall j :: 1 <= j < |tys| ==> TypeEqual(tys[j], tys[0]))
  {
  }

  /** A failure names the first type and a later one of another kind (or a Dynamic one). */
  lemma CollapseFailureNamesMismatch(tys: seq<Type>)
    requires Collapse(tys).Failure?
    ensures exists j :: 1 <= j < |tys| && Collapse(tys).error == NotSameType(tys[0], tys[j]) && !TypeEqual(tys[j], tys[0])
  {
    var j := FirstMismatch(tys, 1).value;
    assert Collapse(tys).error == NotSameType(tys[0], tys[j]);
  }

  /** Only the empty list collapses to no type. */
  lemma CollapseNoneIffEmpty(tys: seq<Type>)
    ensures Collapse(tys) == Success(None) <==> |tys| == 0
  {
  }

  /**
   * With two or more types, collapsing succeeds exactly when every pair of
   * them is shallow-equal (so a list holding Dynamic twice fails).
   */
  lemma CollapseSucceedsIffPairwise(tys: seq<Type>)
    ensures Collapse(tys).Success? <==> (|tys| <= 1 || forall x, y :: x in tys && y in tys ==> TypeEqual(x, y))
  {
    if |tys| >= 2 && Collapse(tys).Success? {
      forall x, y | x in tys && y in tys
        ensures TypeEqual(x, y)
      {
        assert TypeEqual(tys[1], tys[0]);
      }
    }
  }

  /**
   * Collapsing is insensitive to the order of the types: every arrangement
   * of the same types succeeds or fails alike, and when it succeeds with a
   * type, all arrangements give types of one kind.
   */
  lemma CollapseOrderInsensitive(tys: seq<Type>, uys: seq<Type>)
    requires multiset(tys) == multiset(uys)
    ensures Collapse(tys).Success? <==> Collapse(uys).Success?
    ensures Collapse(tys).Success? && |tys| > 0 ==> KindOf(Collapse(tys).value.value) == KindOf(Collapse(uys).value.value)
  {
    assert |uys| == |tys| by {
      assert |multiset(uys)| == |uys|;
    }
    assert forall x :: x in tys <==> x in uys by {
      forall x
        ensures x in tys <==> x in uys
      {
        assert x in tys <==> x in multiset(tys);
        assert x in uys <==> x in multiset(uys);
      }
    }
    CollapseSucceedsIffPairwise(tys);
    CollapseSucceedsIffPairwise(uys);
    if |tys| == 1 {
      assert uys[0] in multiset(tys);
    } else if Collapse(tys).Success? && |tys| > 1 {
      assert TypeEqual(tys[0], uys[0]);
    }
  }

  datatype Severity = SevError | SevWarning

  /** A framework diagnostic; its detail is whatever the producing constructor describes. */
  datatype Diagnostic<D> = Diagnostic(severity: Severity, detail: D)

  /** "%s: %s (and %d more errors)": the first error's detail and the number of diagnostics. */
  datatype DiagError<D> = DiagFailure(detail: D, count: nat)

  predicate HasError<D>(ds: seq<Diagnostic<D>>) {
    exists i :: 0 <= i < |ds| && ds[i].severity == SevError
  }

  /** Position of the first error-severity diagnostic. */
  function FirstErrorIndex<D>(ds: seq<Diagnostic<D>>): (i: nat)
    requires HasError(ds)
    ensures i < |ds| && ds[i].severity == SevError
    ensures forall j :: 0 <= j < i ==> ds[j].severity != SevError
  {
    if ds[0].severity == SevError then 0
    else
      assert HasError(ds[1..]) by {
        var k :| 0 <= k < |ds| && ds[k].severity == SevError;
        assert ds[1..][k - 1] == ds[k];
      }
      1 + FirstErrorIndex(ds[1..])
  }

  /**
   * What `DiagnosticsToError` returns: the value when no diagnostic is an
   * error, otherwise an error carrying the first error's detail and the
   * number of diagnostics, warnings included.
   */
  function DiagnosticsResult<T, D>(v: T, ds: seq<Diagnostic<D>>): (r: Result<T, DiagError<D>>)
    ensures r.Success? <==> !HasError(ds)
    ensures r.Success? ==> r.value == v
    ensures r.Failure? ==> r.error.count == |ds|
    ensures r.Failure? ==>
      exists i :: 0 <= i < |ds| && ds[i].severity == SevError
        && (forall j :: 0 <= j < i ==> ds[j].severity != SevError) && r.error.detail == ds[i].detail
  {
    if HasError(ds) then Failure(DiagFailure(ds[FirstErrorIndex(ds)].detail, |ds|)) else Success(v)
  }

  /** When the first diagnostic is an error, it is the one reported, whatever follows it. */
  lemma DiagnosticsResultFirst<T, D>(v: T, ds: seq<Diagnostic<D>>)
    ensures |ds| > 0 && ds[0].severity == SevError ==> DiagnosticsResult(v, ds) == Failure(DiagFailure(ds[0].detail, |ds|))
  {
  }

  /** The loop of `DiagnosticsToError` finds the first error-severity diagnostic. */
  method DiagnosticsToError<T, D>(v: T, ds: seq<Diagnostic<D>>) returns (r: Result<T, DiagError<D>>)
    ensures r == DiagnosticsResult(v, ds)
  {
    if HasError(ds) {
      var i := 0;
      while i < |ds|
        invariant 0 <= i <= FirstErrorIndex(ds)
      {
        if ds[i].severity == SevError {
          return Failure(DiagFailure(ds[i].detail, |ds|));
        }
        i := i + 1;
      }
      // "no error diagnostic": HasError guarantees the loop returns
      assert false;
    }
    return Success(v);
  }
}
