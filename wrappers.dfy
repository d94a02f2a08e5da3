/** Option and Result, the two failure-carrying shapes the rest of the model returns. */
module Wrappers {

  datatype Option<+T> = None | Some(value: T)

  /** A Go `(value, error)` pair: either a value or the error that replaced it. */
  datatype Result<+T, +E> = Success(value: T) | Failure(error: E) {
    predicate IsFailure() {
      Failure?
    }

    function PropagateFailure<U>(): Result<U, E>
      requires Failure?
    {
      Failure(error)
    }

    function Extract(): T
      requires Success?
    {
      value
    }
  }
}

/**
 * Collecting per-element results, the first failure winning: the shape of
 * every Go loop that returns at its first error.
 */
module Collecting {
  import opened Wrappers

  /** The first index from `i` on whose result is a failure, or `|rs|` if there is none. */
  function FirstFailure<T, E>(rs: seq<Result<T, E>>, i: nat): (k: nat)
    requires i <= |rs|
    ensures i <= k <= |rs|
    ensures forall j :: i <= j < k ==> rs[j].Success?
    ensures k < |rs| ==> rs[k].Failure?
    decreases |rs| - i
  {
    if i == |rs| || rs[i].Failure? then i else FirstFailure(rs, i + 1)
  }

  /**
   * The values of all results, in order, or the error of the first failure:
   * a loop that returns at the first error collects this.
   */
  function Collected<T, E>(rs: seq<Result<T, E>>): (r: Result<seq<T>, E>)
    ensures r.Success? <==> forall k :: 0 <= k < |rs| ==> rs[k].Success?
    ensures r.Success? ==> |r.value| == |rs| && forall k :: 0 <= k < |rs| ==> r.value[k] == rs[k].value
  {
    var k := FirstFailure(rs, 0);
    if k < |rs| then Failure(rs[k].error)
    else Success(seq(|rs|, j requires 0 <= j < |rs| => rs[j].value))
  }

  /** A failure with only successes before it is the one reported, whatever follows it. */
  lemma CollectedReports<T, E>(rs: seq<Result<T, E>>, k: nat)
    requires k < |rs| && rs[k].Failure? && forall j :: 0 <= j < k ==> rs[j].Success?
    ensures Collected(rs) == Failure(rs[k].error)
  {
  }

  /** A reported failure is the first failure. */
  lemma CollectedFailure<T, E>(rs: seq<Result<T, E>>)
    requires Collected(rs).Failure?
    ensures exists k ::
      0 <= k < |rs| && rs[k].Failure? && (forall j :: 0 <= j < k ==> rs[j].Success?) && Collected(rs).error == rs[k].error
  {
    var k := FirstFailure(rs, 0);
    assert 0 <= k < |rs| && rs[k].Failure? && (forall j :: 0 <= j < k ==> rs[j].Success?);
  }
}
