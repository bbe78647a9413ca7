/** Numeric helpers shared by the whole model: Python's min, max and abs on reals,
    the clamp the generator writes as max(lo, min(hi, x)), and an optional value. */
module Common {

  datatype Option<T> = None | Some(value: T)

  function Min(a: real, b: real): real { if a <= b then a else b }

  function Max(a: real, b: real): real { if a >= b then a else b }

  function Abs(a: real): real { if a < 0.0 then -a else a }

  /** max(lo, min(hi, x)) */
  function Clamp(x: real, lo: real, hi: real): (r: real)
    requires lo <= hi
    ensures lo <= r <= hi
    ensures lo <= x <= hi ==> r == x
    ensures x < lo ==> r == lo
    ensures x > hi ==> r == hi
  {
    Max(lo, Min(hi, x))
  }

  /** Clamping to an interval never moves two points further apart. */
  lemma ClampIsNonExpanding(x: real, y: real, lo: real, hi: real)
    requires lo <= hi
    ensures Abs(Clamp(x, lo, hi) - Clamp(y, lo, hi)) <= Abs(x - y)
  {
  }

}
