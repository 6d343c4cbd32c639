/** The pure classification rules of helper_functions.py used when a conjunction is
    stored: the distance-step probability and the four-way orbit zone of each object,
    combined into a single label for the pair. */
module Zones {
  import opened Wrappers
  import OrbitRisk

  /** `estimate_probability(distance_km, rel_velocity_km_s)`: a step function of the
      distance alone. */
  function EstimateProbability(distanceKm: real, relVelocityKmS: real): (p: real)
    ensures p == 0.9 || p == 0.6 || p == 0.3 || p == 0.1
    ensures p >= 0.6 <==> distanceKm < 5.0
  {
    if distanceKm < 1.0 then 0.9
    else if distanceKm < 5.0 then 0.6
    else if distanceKm < 10.0 then 0.3
    else 0.1
  }

  /** A closer approach never gets a lower probability, whatever either relative velocity. */
  lemma ProbabilityNonIncreasing(d1: real, v1: real, d2: real, v2: real)
    requires d1 <= d2
    ensures EstimateProbability(d2, v2) <= EstimateProbability(d1, v1)
  {
  }

  lemma ProbabilityIgnoresVelocity(d: real, v1: real, v2: real)
    ensures EstimateProbability(d, v1) == EstimateProbability(d, v2)
  {
  }

  datatype Zone = LEO | MEO | GEO | HEO

  function ZoneName(z: Zone): string
  {
    match z
    case LEO => "LEO"
    case MEO => "MEO"
    case GEO => "GEO"
    case HEO => "HEO"
  }

  /** Position of a zone in altitude order. */
  function ZoneRank(z: Zone): nat
  {
    match z
    case LEO => 0
    case MEO => 1
    case GEO => 2
    case HEO => 3
  }

  /** The inner `zone(alt)` of `classify_orbit_zone`. */
  function ZoneOf(altitude: real): (z: Zone)
    ensures z == LEO <==> altitude < 2000.0
    ensures z == MEO <==> 2000.0 <= altitude < 35786.0
    ensures z == GEO <==> 35786.0 <= altitude < 40000.0
    ensures z == HEO <==> 40000.0 <= altitude
  {
    if altitude < 2000.0 then LEO
    else if altitude < 35786.0 then MEO
    else if altitude < 40000.0 then GEO
    else HEO
  }

  lemma ZoneMonotone(a1: real, a2: real)
    requires a1 <= a2
    ensures ZoneRank(ZoneOf(a1)) <= ZoneRank(ZoneOf(a2))
  {
  }

  /** Below 40000 km the zone is the class app.py's `classify_orbit` gives; above it the
      two disagree, `zone` saying HEO where `classify_orbit` still says GEO. */
  lemma ZoneAgreesWithClassifyOrbit(altitude: real)
    ensures altitude < 40000.0 ==> ZoneName(ZoneOf(altitude)) == OrbitRisk.Label(OrbitRisk.ClassifyOrbit(altitude))
    ensures 40000.0 <= altitude ==> ZoneOf(altitude) == HEO && OrbitRisk.ClassifyOrbit(altitude) == OrbitRisk.GEO
  {
  }

  /** `sat.model.a * 6378.137 - 6371`: the rough altitude from the semi-major axis in Earth radii. */
  function AltitudeOf(a: real): (alt: real)
    ensures alt < 2000.0 <==> a < (OrbitRisk.EarthRadiusKm + 2000.0) / OrbitRisk.EarthEquatorialRadiusKm
    ensures alt < 40000.0 <==> a < (OrbitRisk.EarthRadiusKm + 40000.0) / OrbitRisk.EarthEquatorialRadiusKm
  {
    a * OrbitRisk.EarthEquatorialRadiusKm - OrbitRisk.EarthRadiusKm
  }

  /** A larger orbit never lies in a lower zone. */
  lemma ZoneOfAxisMonotone(a1: real, a2: real)
    requires a1 <= a2
    ensures ZoneRank(ZoneOf(AltitudeOf(a1))) <= ZoneRank(ZoneOf(AltitudeOf(a2)))
  {
    assert a1 * OrbitRisk.EarthEquatorialRadiusKm <= a2 * OrbitRisk.EarthEquatorialRadiusKm;
    ZoneMonotone(AltitudeOf(a1), AltitudeOf(a2));
  }

  /** `classify_orbit_zone(obj1, obj2)` for objects whose semi-major axes are `a1` and `a2`
      Earth radii. */
  function OrbitZoneLabel(a1: real, a2: real): (tag: string)
    ensures ParseZoneLabel(tag) == Some((ZoneOf(AltitudeOf(a1)), ZoneOf(AltitudeOf(a2))))
    ensures ZoneOf(AltitudeOf(a1)) == ZoneOf(AltitudeOf(a2)) <==> |tag| == 3
  {
    var z1 := ZoneOf(AltitudeOf(a1));
    var z2 := ZoneOf(AltitudeOf(a2));
    ZoneNamedInverts(z1);
    ZoneNamedInverts(z2);
    if z1 == z2 then ZoneName(z1)
    else
      var s := "Mixed (" + ZoneName(z1) + "/" + ZoneName(z2) + ")";
      assert s[..7] == "Mixed (";
      assert s[7..10] == ZoneName(z1);
      assert s[11..14] == ZoneName(z2);
      assert ZoneNamed(s) == None;
      s
  }

  function ZoneNamed(s: string): Option<Zone>
  {
    if s == "LEO" then Some(LEO)
    else if s == "MEO" then Some(MEO)
    else if s == "GEO" then Some(GEO)
    else if s == "HEO" then Some(HEO)
    else None
  }

  lemma ZoneNamedInverts(z: Zone)
    ensures ZoneNamed(ZoneName(z)) == Some(z) && |ZoneName(z)| == 3
  {
  }

  /** Reads a pair label back: a plain zone name for a shared zone, `Mixed (z1/z2)` for two
      different zones. */
  function ParseZoneLabel(s: string): Option<(Zone, Zone)>
  {
    match ZoneNamed(s)
    case Some(z) => Some((z, z))
    case None =>
      if |s| == 15 && s[..7] == "Mixed (" && s[10] == '/' && s[14] == ')' then
        match (ZoneNamed(s[7..10]), ZoneNamed(s[11..14]))
        case (Some(z1), Some(z2)) => if z1 != z2 then Some((z1, z2)) else None
        case _ => None
      else None
  }
}
