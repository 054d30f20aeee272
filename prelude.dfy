// Small shared vocabulary: optional values, results that carry an error
// message (the model's rendering of a thrown Error), and min/max on reals.

module Prelude {

  datatype Option<T> = None | Some(value: T)
  {
    function GetOr(default: T): T
    {
      if Some? then value else default
    }
  }

  datatype Result<T> = Success(value: T) | Failure(error: string)

  function MinR(a: real, b: real): real { if a <= b then a else b }
  function MaxR(a: real, b: real): real { if a >= b then a else b }
  function MinI(a: int, b: int): int { if a <= b then a else b }
  function MaxI(a: int, b: int): int { if a >= b then a else b }

  /** `Math.abs` */
  function AbsR(x: real): (r: real)
    ensures r >= 0.0 && (r == x || r == -x)
  {
    if x < 0.0 then -x else x
  }

  /** JavaScript truthiness of an optional number: null/undefined and 0 are falsy. */
  predicate Truthy(x: Option<real>)
  {
    x.Some? && x.value != 0.0
  }

  /** `x || d` on an optional number. */
  function OrElse(x: Option<real>, d: real): real
  {
    if Truthy(x) then x.value else d
  }

  /** Sum of a sequence of reals. */
  function SumR(xs: seq<real>): real
  {
    if xs == [] then 0.0 else SumR(xs[..|xs| - 1]) + xs[|xs| - 1]
  }
}
