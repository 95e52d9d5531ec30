/** Failure-compatible result types and an induction principle shared by the other modules. */
module Wrappers {

  datatype Option<+T> = None | Some(value: T)

  datatype Result<+R, +E> = Ok(value: R) | Err(error: E) {
    predicate IsFailure() {
      Err?
    }

    function PropagateFailure<U>(): Result<U, E>
      requires Err?
    {
      Err(error)
    }

    function Extract(): R
      requires Ok?
    {
      value
    }
  }

  /** Induction from 0 upwards. */
  lemma {:induction false} FromZero(p: int -> bool, k: nat)
    requires p(0) && forall j | j >= 0 && p(j) :: p(j + 1)
    ensures p(k)
  {
    if k > 0 {
      FromZero(p, k - 1);
      assert p(k - 1 + 1);
    }
  }
}
