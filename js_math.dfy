/**
 * The parts of JavaScript's Math object the skills tree uses. Math.sin,
 * Math.cos and Math.sqrt are not modelled: they are handed to the tree as
 * uninterpreted functions, and a lemma that needs the square root to be one
 * says so with SqrtIsRoot.
 */
module JsMath {

  /** Math.PI, as the real number with its decimal digits. */
  const PI: real := 3.141592653589793

  datatype Math = Math(sin: real -> real, cos: real -> real, sqrt: real -> real)

  function Sin(m: Math, x: real): real
  {
    m.sin(x)
  }

  function Cos(m: Math, x: real): real
  {
    m.cos(x)
  }

  function Sqrt(m: Math, x: real): real
  {
    m.sqrt(x)
  }

  /** Math.sqrt returns the non-negative square root of a non-negative argument. */
  ghost predicate SqrtIsRoot(m: Math)
  {
    forall t: real :: 0.0 <= t ==> 0.0 <= Sqrt(m, t) && Sqrt(m, t) * Sqrt(m, t) == t
  }
}
