/**
 * The two input checks of the workout form: every raw field must be a finite
 * number, and the fields that measure something must be strictly positive.
 *
 * A raw field is an `Option<real>`: `Some(x)` is a finite number, `None` is
 * anything `Number.isFinite` rejects (NaN from a non-numeric string, or an
 * infinity). Unary `+` turns an empty or blank field into 0, so such a field
 * is `Some(0.0)`.
 */
module Validation {
  import opened Wrappers

  /** Every raw field is a finite number (`areNumbers` in `script.js`). */
  function AreNumbers(inputs: seq<Option<real>>): (r: bool)
    ensures r <==> forall i :: 0 <= i < |inputs| ==> inputs[i].Some?
  {
    if inputs == [] then true
    else inputs[0].Some? && AreNumbers(inputs[1..])
  }

  /** Every field is strictly greater than zero (`arePositive` in `script.js`). */
  function ArePositive(inputs: seq<real>): (r: bool)
    ensures r <==> forall i :: 0 <= i < |inputs| ==> inputs[i] > 0.0
  {
    if inputs == [] then true
    else inputs[0] > 0.0 && ArePositive(inputs[1..])
  }

  /** The numbers carried by fields already known to be finite. */
  function Numbers(inputs: seq<Option<real>>): (r: seq<real>)
    requires AreNumbers(inputs)
    ensures |r| == |inputs|
    ensures forall i :: 0 <= i < |inputs| ==> inputs[i] == Some(r[i])
  {
    if inputs == [] then []
    else [inputs[0].value] + Numbers(inputs[1..])
  }
}
