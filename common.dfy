/** Shared vocabulary: optional values, the outcome of an operation that can raise, the
    numeric helpers the game's Python code gets from its standard library, and the
    transcendental arithmetic the model leaves uninterpreted. */
module Common {

  datatype Option<T> = None | Some(value: T)

  /** Exceptions the modelled code can raise. */
  datatype Failure =
    | NoAttackLoaded      // `current_attack.get` on None (Heavy, unbranched direction)
    | InvalidPlayerId     // `ValueError` from `get_player_input`
    | NoSelection         // subscripting a `None` selection when the match starts

  datatype Result<T> = Ok(value: T) | Err(failure: Failure) {
    predicate IsFailure() { Err? }
    function PropagateFailure<U>(): Result<U> requires Err? { Err(failure) }
    function Extract(): T requires Ok? { value }
  }

  /** `cos` and `sin` of an angle given in whole degrees, and `x ** 1.5`. Nothing in the
      model depends on their values beyond what a lemma states as a precondition. */
  datatype Numerics = Numerics(cosDeg: int -> real, sinDeg: int -> real, pow15: real -> real)

  function Abs(x: real): (r: real)
    ensures r >= 0.0 && (r == x || r == -x)
  {
    if x < 0.0 then -x else x
  }

  function Max(a: real, b: real): (r: real)
    ensures r >= a && r >= b && (r == a || r == b)
  {
    if a >= b then a else b
  }

  function Min(a: real, b: real): (r: real)
    ensures r <= a && r <= b && (r == a || r == b)
  {
    if a <= b then a else b
  }

  /** `numpy.sign` on a real. */
  function Sign(x: real): (r: real)
    ensures (x > 0.0 <==> r == 1.0) && (x < 0.0 <==> r == -1.0) && (x == 0.0 <==> r == 0.0)
  {
    if x > 0.0 then 1.0 else if x < 0.0 then -1.0 else 0.0
  }

  /** Python's `int(x)` on a float: rounds toward zero. */
  function Trunc(x: real): (r: int)
    ensures x >= 0.0 ==> r as real <= x < r as real + 1.0
    ensures x < 0.0 ==> r as real - 1.0 < x <= r as real
  {
    if x >= 0.0 then x.Floor else -((-x).Floor)
  }
}
