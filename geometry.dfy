/**
 * Vectors and the two scalar helpers of the engine that the spawners rely on:
 * the value a float `Random.Range(a, b)` may return, and `Mathf.Clamp`.
 * All scalars are mathematical reals: no IEEE rounding is modelled.
 */
module Geometry {

  /** A Unity `Vector3`; a `Vector2` is one whose `z` is 0. */
  datatype Vec3 = Vec3(x: real, y: real, z: real)

  /**
   * `v` is a value `Random.Range(a, b)` can return: it lies between the two
   * bounds inclusively, whichever of them is the smaller.
   */
  predicate Between(v: real, a: real, b: real) {
    if a <= b then a <= v <= b else b <= v <= a
  }

  /** Every component of `v` is a possible `Random.Range` draw for that axis. */
  predicate BetweenVec(v: Vec3, lo: Vec3, hi: Vec3) {
    Between(v.x, lo.x, hi.x) && Between(v.y, lo.y, hi.y) && Between(v.z, lo.z, hi.z)
  }

  /** `v` lies in the closed interval `[lo, hi]` (used where `lo <= hi` is known). */
  predicate Within(v: real, lo: real, hi: real) {
    lo <= v <= hi
  }

  /**
   * `Mathf.Clamp(v, lo, hi)`: below `lo` gives `lo`, otherwise above `hi`
   * gives `hi`, otherwise `v` itself. With `lo > hi` the lower bound wins
   * for small values and the upper one for large values.
   */
  function Clamp(v: real, lo: real, hi: real): (r: real)
    ensures lo <= hi ==> Within(r, lo, hi)
    ensures Within(v, lo, hi) ==> r == v
    ensures r == v || r == lo || r == hi
    ensures v < lo ==> r == lo
    ensures !(v < lo) && hi < v ==> r == hi
  {
    if v < lo then lo else if v > hi then hi else v
  }
}
