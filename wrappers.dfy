/** Failure-compatible wrappers shared by every module of the model. */
module Wrappers {

  /** A value that may be absent (a JavaScript `undefined` or a missing field). */
  datatype Option<+T> = None | Some(value: T) {
    function GetOr(default: T): T {
      match this
      case Some(v) => v
      case None => default
    }
  }

  /** The outcome of a call that either returns a value or throws. */
  datatype Result<+T, +E> = Success(value: T) | Failure(error: E) {
    predicate IsFailure() {
      Failure?
    }

    function PropagateFailure<U>(): Result<U, E>
      requires Failure?
    {
      Failure(error)
    }

    function Extract(): T
      requires Success?
    {
      value
    }
  }

  /** `values.map(v => v || "").filter(v => v !== "")`: the present, non-empty
      strings, in order. */
  function NonEmptyStrings(values: seq<Option<string>>): (names: seq<string>)
    ensures |names| <= |values|
    ensures forall n :: n in names ==> n != ""
  {
    if values == [] then []
    else
      var p := NonEmptyStrings(values[..|values| - 1]);
      var v := values[|values| - 1].GetOr("");
      if v != "" then p + [v] else p
  }

  /** A string survives exactly when it is non-empty and present in the input. */
  lemma {:induction false} NonEmptyStringsMembership(values: seq<Option<string>>, n: string)
    ensures n in NonEmptyStrings(values) <==> n != "" && Some(n) in values
  {
    if values != [] {
      var p := values[..|values| - 1];
      assert values == p + [values[|values| - 1]];
      NonEmptyStringsMembership(p, n);
    }
  }
}
