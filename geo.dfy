/**
 * Geometry shared by the routing services: coordinate pairs, the great-circle
 * distance (kept abstract) and JavaScript's non-finite numbers.
 */
module Geo {

  /** A `[lat, lon]` pair as the services store route geometry, in degrees. */
  type Position = (real, real)

  /**
   * The haversine distance in metres between (lat1, lon1) and (lat2, lon2).
   * Its trigonometric body is not modelled: every operation takes it as a
   * parameter and relies only on `NonNegative`.
   */
  type DistanceFn = (real, real, real, real) -> real

  ghost predicate NonNegative(dist: DistanceFn)
  {
    forall lat1, lon1, lat2, lon2 :: dist(lat1, lon1, lat2, lon2) >= 0.0
  }

  /** A JavaScript `number`: a finite value, `NaN` or one of the infinities. */
  datatype JsNumber = Finite(value: real) | NaN | PosInfinity | NegInfinity

  function Abs(x: real): (r: real)
    ensures r >= 0.0 && (r == x || r == -x)
  {
    if x < 0.0 then -x else x
  }

  /** JavaScript's `Math.round`: the nearest integer, halves rounded up. */
  function Round(x: real): (n: int)
    ensures x - 0.5 < n as real <= x + 0.5
  {
    (x + 0.5).Floor
  }

  lemma RoundMonotone(x: real, y: real)
    requires x <= y
    ensures Round(x) <= Round(y)
  {
  }
}
