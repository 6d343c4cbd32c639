/** The altitude rules of the backend's app.py: orbit classification, the density-based
    risk factor of the live feed, and the clamped collision risk of the orbital-elements
    feed. Altitudes are kilometres above a 6371 km Earth radius; the square root that turns
    a position into a radius is taken as already done. */
module OrbitRisk {
  import Text

  /** The mean Earth radius the backend subtracts from a geocentric radius. */
  const EarthRadiusKm: real := 6371.0
  /** The equatorial Earth radius that converts SGP4's semi-major axis (in Earth radii) to km. */
  const EarthEquatorialRadiusKm: real := 6378.137

  datatype OrbitClass = LEO | MEO | GEO

  /** The string the backend stores in `orbitType`. */
  function Label(c: OrbitClass): string
  {
    match c
    case LEO => "LEO"
    case MEO => "MEO"
    case GEO => "GEO"
  }

  /** Position of a class in altitude order. */
  function Tier(c: OrbitClass): nat
  {
    match c
    case LEO => 0
    case MEO => 1
    case GEO => 2
  }

  /** Position of a class's label in Python's string order. */
  function LabelRank(c: OrbitClass): nat
  {
    match c
    case GEO => 0
    case LEO => 1
    case MEO => 2
  }

  /** Sorting on `LabelRank` is sorting on the `orbitType` string. */
  lemma LabelRankIsStringOrder(a: OrbitClass, b: OrbitClass)
    ensures Text.Less(Label(a), Label(b)) <==> LabelRank(a) < LabelRank(b)
  {
    if a == b { Text.LessIrreflexive(Label(a)); }
  }

  /** `classify_orbit(altitude)`: LEO below 2000 km, MEO below 35786 km, GEO above. */
  function ClassifyOrbit(altitude: real): (c: OrbitClass)
    ensures c == LEO <==> altitude < 2000.0
    ensures c == MEO <==> 2000.0 <= altitude < 35786.0
    ensures c == GEO <==> 35786.0 <= altitude
  {
    if altitude < 2000.0 then LEO
    else if altitude < 35786.0 then MEO
    else GEO
  }

  lemma ClassifyOrbitMonotone(a1: real, a2: real)
    requires a1 <= a2
    ensures Tier(ClassifyOrbit(a1)) <= Tier(ClassifyOrbit(a2))
  {
  }

  function Min(a: real, b: real): real { if a <= b then a else b }

  function Max(a: real, b: real): real { if a >= b then a else b }

  /** The altitude band `calculate_risk_factor` branches on: below 500 km, below 2000 km, above. */
  function RiskBand(altitude: real): nat
  {
    if altitude < 500.0 then 0 else if altitude < 2000.0 then 1 else 2
  }

  /** `calculate_risk_factor`, given the altitude the function derives from x, y, z. */
  function RiskFactor(altitude: real): (r: real)
    ensures altitude < 500.0 ==> 20.0 <= r <= 90.0
    ensures 500.0 <= altitude < 2000.0 ==> 10.0 <= r <= 70.0
    ensures 2000.0 <= altitude ==> 5.0 <= r <= 28.0
  {
    if altitude < 500.0 then Min(90.0, Max(20.0, 100.0 - altitude / 10.0))
    else if altitude < 2000.0 then Min(70.0, Max(10.0, 80.0 - altitude / 50.0))
    else Max(5.0, 30.0 - altitude / 1000.0)
  }

  /** Within one band the risk factor never grows with altitude. */
  lemma RiskFactorMonotoneInBand(a1: real, a2: real)
    requires a1 <= a2 && RiskBand(a1) == RiskBand(a2)
    ensures RiskFactor(a2) <= RiskFactor(a1)
  {
  }

  /** Across the 500 km band edge it does grow: every altitude in [400, 500) scores below 500 km. */
  lemma RiskFactorRisesAt500(a: real)
    requires 400.0 <= a < 500.0
    ensures RiskFactor(a) < RiskFactor(500.0)
  {
  }

  /** The step base risk of `calculate_collision_risk`. */
  function BaseRisk(altitude: real): (b: real)
    ensures b == 85.0 || b == 70.0 || b == 45.0 || b == 20.0
  {
    if altitude < 600.0 then 85.0
    else if altitude < 1000.0 then 70.0
    else if altitude < 2000.0 then 45.0
    else 20.0
  }

  lemma BaseRiskNonIncreasing(a1: real, a2: real)
    requires a1 <= a2
    ensures BaseRisk(a2) <= BaseRisk(a1)
  {
  }

  /** `calculate_collision_risk` with the `random.uniform(0.7, 1.3)` draw passed in as
      `modifier`: the base risk scaled by the draw, clamped to [5, 95]. */
  function CollisionRisk(altitude: real, modifier: real): (r: real)
    ensures 5.0 <= r <= 95.0
    ensures 5.0 <= BaseRisk(altitude) * modifier <= 95.0 ==> r == BaseRisk(altitude) * modifier
  {
    Min(95.0, Max(5.0, BaseRisk(altitude) * modifier))
  }

  /** For a draw the source can make, only the top of the range is ever clamped: the lowest
      score is 20 * 0.7 = 14, and above 2000 km the score is exactly 20 times the draw. */
  lemma CollisionRiskForDraws(altitude: real, modifier: real)
    requires 0.7 <= modifier <= 1.3
    ensures 14.0 <= CollisionRisk(altitude, modifier)
    ensures 2000.0 <= altitude ==> CollisionRisk(altitude, modifier) == 20.0 * modifier
  {
  }
}
