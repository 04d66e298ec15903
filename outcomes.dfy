/** Optional values and the outcome of Python code that may raise.

    `Option` models a value that may be Python's `None` (or a key that may be
    absent); `Outcome` models a computation that either returns a value or
    raises an exception (a `TypeError`, an `AttributeError`, ...). The text of
    the exception is not modelled. `Outcome` is failure-compatible, so
    `var x :- e; body` propagates `Raised` the way Python propagates an
    exception. */
module Outcomes {

  datatype Option<+T> = None | Some(value: T) {
    function GetOr(default: T): T
    {
      match this
      case Some(v) => v
      case None => default
    }
  }

  datatype Outcome<+T> = Ok(value: T) | Raised {
    predicate IsFailure()
    {
      Raised?
    }

    function PropagateFailure<U>(): Outcome<U>
      requires Raised?
    {
      Raised
    }

    function Extract(): T
      requires Ok?
    {
      value
    }
  }

  /** `try: return f() except Exception: return None` around code that itself
      returns an optional value. */
  function Caught<T>(o: Outcome<Option<T>>): (r: Option<T>)
    ensures o.Raised? ==> r.None?
    ensures o.Ok? ==> r == o.value
  {
    match o
    case Ok(x) => x
    case Raised => None
  }
}
