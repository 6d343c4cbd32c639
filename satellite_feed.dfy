/** The `/api/satellites` feed of app.py: a module-level cache that is refetched from
    CelesTrak only when it is older than 30 seconds, rebuilt from the fetched TLE lines
    three at a time, and cut to its first 100 records. */
module SatelliteFeed {
  import opened Wrappers
  import Text
  import opened Triples
  import opened OrbitRisk

  /** What skyfield gives for one triple at the current time: the geocentric position
      in km, its norm (the square root taken by the caller), and the inclination in radians. */
  datatype Fix = Fix(x: real, y: real, z: real, radius: real, inclination: real)

  /** One entry of the feed (the constant `"type": "satellite"` is not carried). */
  datatype Satellite = Satellite(
    id: nat, name: string, x: real, y: real, z: real, inclinationDeg: real,
    orbitType: OrbitClass, riskFactor: real, timestamp: real)

  /** `EarthSatellite(line1, line2, name, ts).at(now)` on a triple's stripped lines;
      `None` when the library raises. */
  type Tracker = (string, string, string) -> Option<Fix>

  /** The `"orbitType"` expression of the record; `None` when it raises. */
  type Classifier = Fix -> Option<OrbitClass>

  /** numpy's `array < bound`: the element-wise comparison, an array of booleans. */
  function ElementwiseLess(v: seq<real>, bound: real): (r: seq<bool>)
    ensures |r| == |v|
    ensures forall i :: 0 <= i < |v| ==> r[i] == (v[i] < bound)
  {
    if v == [] then [] else [v[0] < bound] + ElementwiseLess(v[1..], bound)
  }

  /** `bool(array)`, which `if` applies to its condition: the element of a one-element
      array, and `ValueError` (`None`) for an array of more than one element, whose truth
      value numpy calls ambiguous. An empty array counts as false. */
  function Truth(a: seq<bool>): Option<bool>
  {
    if |a| > 1 then None else Some(|a| == 1 && a[0])
  }

  /** `classify_orbit(altitude)` applied to a numpy array `altitude`: each `if` takes the
      truth value of an element-wise comparison; `None` when that raises. */
  function ClassifyArray(altitude: seq<real>): Option<OrbitClass>
  {
    match Truth(ElementwiseLess(altitude, 2000.0))
    case None => None
    case Some(below) =>
      if below then Some(LEO)
      else
        match Truth(ElementwiseLess(altitude, 35786.0))
        case None => None
        case Some(belowGeo) => if belowGeo then Some(MEO) else Some(GEO)
  }

  /** On a one-element array `classify_orbit` behaves as on its element. */
  lemma ClassifyArrayScalar(altitude: real)
    ensures ClassifyArray([altitude]) == Some(ClassifyOrbit(altitude))
  {
    assert ElementwiseLess([altitude], 2000.0)[0] == (altitude < 2000.0);
    assert ElementwiseLess([altitude], 35786.0)[0] == (altitude < 35786.0);
  }

  /** On an array of more than one element the first `if` already raises. */
  lemma ClassifyArrayRaises(v: seq<real>)
    requires |v| > 1
    ensures ClassifyArray(v) == None
  {
    assert |ElementwiseLess(v, 2000.0)| > 1;
  }

  /** As written, the record computes `classify_orbit(geocentric.position.km)`: the argument
      is the 3-element position array, not an altitude, so the first `if` raises. */
  function AsWrittenClassification(f: Fix): (c: Option<OrbitClass>)
    ensures c == None
  {
    ClassifyArrayRaises([f.x, f.y, f.z]);
    ClassifyArray([f.x, f.y, f.z])
  }

  /** The evident intent: classify the object's altitude above the Earth's surface. */
  function ClassifyByAltitude(f: Fix): (c: Option<OrbitClass>)
    ensures c.Some? && (c.value == LEO <==> f.radius < EarthRadiusKm + 2000.0)
  {
    Some(ClassifyOrbit(f.radius - EarthRadiusKm))
  }

  /** The record the `try` block for triple `k` appends, or `None` when it raised. */
  function SatelliteAt(lines: seq<string>, track: Tracker, classify: Classifier, now: real, k: nat): (r: Option<Satellite>)
    ensures r.Some? <==>
              && Complete(lines, k)
              && var fix := track(Text.Strip(lines[3 * k]), Text.Strip(lines[3 * k + 1]), Text.Strip(lines[3 * k + 2]));
                 fix.Some? && classify(fix.value).Some?
    ensures r.Some? ==>
              && r.value.id == k && r.value.name == Text.Strip(lines[3 * k]) && r.value.timestamp == now
              && 5.0 <= r.value.riskFactor <= 90.0
  {
    if !Complete(lines, k) then None
    else
      var name := Text.Strip(lines[3 * k]);
      match track(name, Text.Strip(lines[3 * k + 1]), Text.Strip(lines[3 * k + 2]))
      case None => None
      case Some(f) =>
        match classify(f)
        case None => None
        case Some(c) =>
          Some(Satellite(k, name, f.x, f.y, f.z, f.inclination * 180.0 / 3.14159, c,
                         RiskFactor(f.radius - EarthRadiusKm), now))
  }

  function SatelliteOutcomes(lines: seq<string>, track: Tracker, classify: Classifier, now: real): nat -> Option<Satellite>
  {
    (k: nat) => SatelliteAt(lines, track, classify, now, k)
  }

  /** The list `satellites` after the loop has visited triples `0 .. k - 1`. */
  function SatellitesUpTo(lines: seq<string>, track: Tracker, classify: Classifier, now: real, k: nat): seq<Satellite>
  {
    Gather(SatelliteOutcomes(lines, track, classify, now), k)
  }

  /** The list `satellites` once the loop over `lines` is done. */
  function Satellites(lines: seq<string>, track: Tracker, classify: Classifier, now: real): seq<Satellite>
  {
    SatellitesUpTo(lines, track, classify, now, TripleCount(|lines|))
  }

  /** One more iteration appends the record of triple `k`, if it built one. */
  lemma SatellitesUpToStep(lines: seq<string>, track: Tracker, classify: Classifier, now: real, k: nat)
    ensures var r := SatelliteAt(lines, track, classify, now, k);
      SatellitesUpTo(lines, track, classify, now, k + 1)
        == SatellitesUpTo(lines, track, classify, now, k) + (if r.Some? then [r.value] else [])
  {
  }

  function IdOf(s: Satellite): nat { s.id }

  /** The `try` block of lines 59-81 for the triple starting at line `i`. */
  method TryTriple(lines: seq<string>, i: nat, ghost k: nat, track: Tracker, classify: Classifier, now: real)
    returns (record: Option<Satellite>)
    requires i == 3 * k
    ensures record == SatelliteAt(lines, track, classify, now, k)
  {
    assert i / 3 == k;
    record := None;
    if i + 2 < |lines| {
      var name := Text.Strip(lines[i]);
      var line1 := Text.Strip(lines[i + 1]);
      var line2 := Text.Strip(lines[i + 2]);
      var fix := track(name, line1, line2);
      if fix.Some? {
        var orbitType := classify(fix.value);
        if orbitType.Some? {
          var f := fix.value;
          record := Some(Satellite(i / 3, name, f.x, f.y, f.z, f.inclination * 180.0 / 3.14159,
                                   orbitType.value, RiskFactor(f.radius - EarthRadiusKm), now));
        }
      }
    }
  }

  /** The loop of lines 58-81. */
  method BuildSatellites(lines: seq<string>, track: Tracker, classify: Classifier, now: real)
    returns (satellites: seq<Satellite>)
    ensures satellites == Satellites(lines, track, classify, now)
  {
    satellites := [];
    var i := 0;
    ghost var k: nat := 0;
    while i < |lines|
      invariant i == 3 * k && i < |lines| + 3
      invariant satellites == SatellitesUpTo(lines, track, classify, now, k)
    {
      SatellitesUpToStep(lines, track, classify, now, k);
      var record := TryTriple(lines, i, k, track, classify, now);
      if record.Some? {
        satellites := satellites + [record.value];
      }
      i, k := i + 3, k + 1;
    }
    TripleCountAt(|lines|, k);
  }

  lemma SatelliteOutcomesTagged(lines: seq<string>, track: Tracker, classify: Classifier, now: real)
    ensures var f := SatelliteOutcomes(lines, track, classify, now);
      forall k: nat :: f(k).Some? ==> IdOf(f(k).value) == k
  {
  }

  /** Each record's id is its triple index and ids strictly increase; a skipped triple's id
      is never used, and every triple that built a record is present. */
  lemma SatellitesShape(lines: seq<string>, track: Tracker, classify: Classifier, now: real)
    ensures var sats := Satellites(lines, track, classify, now);
      forall a, b :: 0 <= a < b < |sats| ==> sats[a].id < sats[b].id
    ensures var sats := Satellites(lines, track, classify, now);
      forall s :: s in sats ==> Complete(lines, s.id) && SatelliteAt(lines, track, classify, now, s.id) == Some(s)
    ensures var sats := Satellites(lines, track, classify, now);
      forall k: nat :: k < TripleCount(|lines|) && SatelliteAt(lines, track, classify, now, k).Some? ==>
        SatelliteAt(lines, track, classify, now, k).value in sats
  {
    var f := SatelliteOutcomes(lines, track, classify, now);
    SatelliteOutcomesTagged(lines, track, classify, now);
    GatherTagged(f, IdOf, TripleCount(|lines|));
    assert forall k: nat :: f(k) == SatelliteAt(lines, track, classify, now, k);
  }

  /** Every risk factor of the feed lies in [5, 90], the range of `calculate_risk_factor`. */
  lemma SatelliteRiskInRange(lines: seq<string>, track: Tracker, classify: Classifier, now: real, s: Satellite)
    requires s in Satellites(lines, track, classify, now)
    ensures 5.0 <= s.riskFactor <= 90.0
  {
    SatellitesShape(lines, track, classify, now);
  }

  /** The corrected feed classifies every record by its altitude. */
  lemma CorrectedFeedClassifies(lines: seq<string>, track: Tracker, now: real, s: Satellite)
    requires s in Satellites(lines, track, ClassifyByAltitude, now)
    ensures Complete(lines, s.id)
    ensures exists f: Fix :: track(Text.Strip(lines[3 * s.id]), Text.Strip(lines[3 * s.id + 1]), Text.Strip(lines[3 * s.id + 2])) == Some(f)
                            && s.orbitType == ClassifyOrbit(f.radius - EarthRadiusKm)
                            && s.riskFactor == RiskFactor(f.radius - EarthRadiusKm)
  {
    SatellitesShape(lines, track, ClassifyByAltitude, now);
  }

  /** As written, no triple ever builds a record, so every refresh empties the cache. */
  lemma AsWrittenFeedIsEmpty(lines: seq<string>, track: Tracker, now: real)
    ensures Satellites(lines, track, AsWrittenClassification, now) == []
  {
    GatherNothing(SatelliteOutcomes(lines, track, AsWrittenClassification, now), TripleCount(|lines|));
  }

  const UpdateIntervalSeconds: real := 30.0
  const CacheLimit: nat := 100

  /** `requests.get(tle_url)` raised: the exception leaves the request handler. */
  datatype FetchError = RequestFailed

  /** The module-level `satellite_cache` dict. */
  class SatelliteCache {
    var data: seq<Satellite>
    var lastUpdate: real
    const updateInterval: real

    ghost predicate Valid()
      reads this
    {
      |data| <= CacheLimit && updateInterval == UpdateIntervalSeconds
    }

    constructor ()
      ensures Valid() && data == [] && lastUpdate == 0.0
    {
      data := [];
      lastUpdate := 0.0;
      updateInterval := UpdateIntervalSeconds;
    }

    /** The refresh test: strictly more than `update_interval` seconds since the last update. */
    predicate Stale(now: real)
      reads this
    {
      now - lastUpdate > updateInterval
    }

    /** `get_satellite_positions` at time `now` (`time.time()`). `fetched` is the line list
        the CelesTrak request returns, `None` when the request raises; it is used only when
        the cache is stale. A raising request leaves the cache as it was, still stale. */
    method Serve(now: real, fetched: Option<seq<string>>, track: Tracker) returns (served: Result<seq<Satellite>, FetchError>)
      requires Valid()
      modifies this
      ensures Valid()
      ensures old(Stale(now)) && fetched.Some? ==>
        data == Prefix(Satellites(fetched.value, track, ClassifyByAltitude, now), CacheLimit) && lastUpdate == now
      ensures old(Stale(now)) && fetched.None? ==>
        data == old(data) && lastUpdate == old(lastUpdate) && served == Err(RequestFailed)
      ensures !old(Stale(now)) ==> data == old(data) && lastUpdate == old(lastUpdate)
      ensures !(old(Stale(now)) && fetched.None?) ==> served == Ok(data)
    {
      if now - lastUpdate > updateInterval {
        if fetched.None? {
          return Err(RequestFailed);
        }
        var satellites := BuildSatellites(fetched.value, track, ClassifyByAltitude, now);
        data := Prefix(satellites, CacheLimit);
        lastUpdate := now;
      }
      served := Ok(data);
    }
  }

  /** Two requests in a row, each with the tracker of its own `ts.now()`. After a refresh at
      `t1`, a request no more than 30 seconds later is served from the cache whatever
      CelesTrak would now return, and one more than 30 seconds later is rebuilt from the new
      listing. After a refresh whose request raised, the next request fetches again. */
  method ServeTwice(cache: SatelliteCache, t1: real, t2: real, fetched1: Option<seq<string>>, fetched2: Option<seq<string>>,
                    track1: Tracker, track2: Tracker)
    returns (first: Result<seq<Satellite>, FetchError>, second: Result<seq<Satellite>, FetchError>)
    requires cache.Valid()
    modifies cache
    ensures cache.Valid()
    ensures old(cache.Stale(t1)) && fetched1.Some? && t2 - t1 <= UpdateIntervalSeconds ==> second == first
    ensures old(cache.Stale(t1)) && fetched1.Some? && t2 - t1 > UpdateIntervalSeconds && fetched2.Some? ==>
      second == Ok(Prefix(Satellites(fetched2.value, track2, ClassifyByAltitude, t2), CacheLimit))
    ensures old(cache.Stale(t1)) && fetched1.None? && t1 <= t2 && fetched2.Some? ==>
      second == Ok(Prefix(Satellites(fetched2.value, track2, ClassifyByAltitude, t2), CacheLimit))
  {
    first := cache.Serve(t1, fetched1, track1);
    second := cache.Serve(t2, fetched2, track2);
  }
}
