/** Failure-compatible wrappers used to model Python exceptions as values. */
module Results {

  /** An optional value: Python's `None` versus a present value. */
  datatype Option<+T> = None | Some(value: T)

  /** The outcome of an operation that may raise: a value, or the exception it raised. */
  datatype Result<+T, +E> = Ok(value: T) | Err(error: E) {

    predicate IsFailure() {
      Err?
    }

    function PropagateFailure<U>(): Result<U, E>
      requires Err?
    {
      Err(error)
    }

    function Extract(): T
      requires Ok?
    {
      value
    }
  }

  /** The error a step's outcome carries, if it failed. */
  function ErrorOf<T, E>(r: Result<T, E>): (e: Option<E>)
    ensures e.Some? <==> r.Err?
    ensures e.Some? ==> e.value == r.error
  {
    if r.Err? then Some(r.error) else None
  }

  /** No step of a run fails. */
  predicate AllPass<E>(steps: seq<Option<E>>) {
    forall k :: 0 <= k < |steps| ==> steps[k].None?
  }

  /** Step `k` is the first step of a run to fail, and it fails with `e`. */
  predicate FirstFailure<E(==)>(steps: seq<Option<E>>, k: int, e: E) {
    0 <= k < |steps| && steps[k] == Some(e) && forall j :: 0 <= j < k ==> steps[j].None?
  }
}
