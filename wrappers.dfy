/** Failure-compatible result types shared by both contracts. */
module Wrappers {

  datatype Option<T> = None | Some(value: T)

  /** The outcome of an action that returns a value or aborts with an error. */
  datatype Result<T, E> = Ok(value: T) | Err(error: E) {
    predicate IsFailure() { Err? }

    function PropagateFailure<U>(): Result<U, E>
      requires Err?
    {
      Err(error)
    }

    function Extract(): T
      requires Ok?
    {
      value
    }
  }

  /** The outcome of an action that only commits or aborts. */
  datatype Outcome<E> = Pass | Fail(error: E)

  function OutcomeOf<T, E>(r: Result<T, E>): (o: Outcome<E>)
    ensures o.Pass? <==> r.Ok?
    ensures r.Err? ==> o == Fail(r.error)
  {
    match r
    case Ok(_) => Pass
    case Err(e) => Fail(e)
  }

  /** The state after a transaction: the new state if it committed, the old one if it aborted. */
  function After<T, E>(before: T, r: Result<T, E>): (s: T)
    ensures r.Err? ==> s == before
    ensures r.Ok? ==> s == r.value
  {
    if r.Ok? then r.value else before
  }
}
