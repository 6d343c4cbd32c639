/** `store_conjunction` and `detect_global_conjunctions` of helper_functions.py: load up to
    twenty active satellites and twenty debris objects, simulate every unordered pair over
    the next seven days, and store a conjunction row for each pair that comes within 10 km.
    The database session is modelled as the sequence of rows added to it, in order. */
module Conjunctions {
  import opened Wrappers
  import Text
  import Zones
  import opened TleObjects
  import opened ClosestApproach

  /** Lines 38-49 for two objects at a UTC time in whole seconds. */
  type PairProbe = (TleObject, TleObject, int) -> Sample

  function ProbeFor(probe: PairProbe, o1: TleObject, o2: TleObject): Probe
  {
    (t: int) => probe(o1, o2, t)
  }

  const ThresholdKm: real := 10.0
  const LoadLimit := 20
  const ActiveFile := "cached_active.tle"
  const DebrisFile := "cached_iridium_debris.tle"
  /** `timedelta(days=7)` in microseconds. */
  const WindowMicros := 7 * 24 * 60 * MicrosPerMinute

  /** A row `store_conjunction` adds to the session. `detected_at` (a clock read) and
      `notes` (always `None`) are not part of it. */
  datatype Conjunction = Conjunction(
    object1Id: nat, object1Name: string, object1Type: ObjectType,
    object2Id: nat, object2Name: string, object2Type: ObjectType,
    conjunctionTime: Option<int>, closestDistanceKm: Distance,
    object1VelocityKmS: real, object2VelocityKmS: real, relativeVelocityKmS: real,
    probability: real, orbitZone: string)

  /** `min_dist < bound`; `float('inf')` is below no bound. */
  predicate Below(d: Distance, bound: real)
  {
    d.Km? && d.km < bound
  }

  /** `estimate_probability(min_dist, min_rel_vel)` on a distance that may be `inf`: the
      same steps, each comparison made by `Below`. A finite distance gets what
      `estimate_probability` gives it, and `inf` falls through every step to 0.1. */
  function ProbabilityOf(d: Distance, relVel: real): (p: real)
    ensures d.Km? ==> p == Zones.EstimateProbability(d.km, relVel)
    ensures d.Infinity? ==> p == 0.1
  {
    if Below(d, 1.0) then 0.9
    else if Below(d, 5.0) then 0.6
    else if Below(d, 10.0) then 0.3
    else 0.1
  }

  /** `store_conjunction(obj1, obj2, *approach)`: the row built from the two objects and
      their closest approach. Its probability is above the bottom step exactly when the
      approach is within the screening threshold, and at least 0.6 exactly within 5 km; its
      zone label reads back to the two objects' zones, in argument order. */
  function StoreConjunction(o1: TleObject, o2: TleObject, a: Approach): (c: Conjunction)
    ensures c.object1Id == o1.id && c.object2Id == o2.id && c.object1Type == o1.kind && c.object2Type == o2.kind
    ensures c.closestDistanceKm == a.minDist && c.conjunctionTime == a.conjTime
    ensures c.probability > 0.1 <==> Close(a)
    ensures c.probability >= 0.6 <==> Below(a.minDist, 5.0)
    ensures Zones.ParseZoneLabel(c.orbitZone)
              == Some((Zones.ZoneOf(Zones.AltitudeOf(o1.sat.a)), Zones.ZoneOf(Zones.AltitudeOf(o2.sat.a))))
  {
    Conjunction(o1.id, o1.name, o1.kind, o2.id, o2.name, o2.kind,
                a.conjTime, a.minDist, a.v1, a.v2, a.relVel,
                ProbabilityOf(a.minDist, a.relVel), Zones.OrbitZoneLabel(o1.sat.a, o2.sat.a))
  }

  /** `min_dist < 10`; an infinite distance is not below the threshold. */
  predicate Close(a: Approach)
  {
    Below(a.minDist, ThresholdKm)
  }

  /** `simulate_closest_approach(obj1, obj2, start, end)` with the default ten-minute step:
      over a non-empty window, a finite distance reached at a sampled time inside it. */
  function PairApproach(o1: TleObject, o2: TleObject, probe: PairProbe, start: int, end: int): (a: Approach)
    ensures start > end ==> a == NoApproach
    ensures start <= end ==> a.minDist.Km? && a.conjTime.Some? && start <= a.conjTime.value <= end
  {
    ClosestApproachOf(ProbeFor(probe, o1, o2), start, end, 10)
  }

  /** The pairs `(i, j)` for `j` in `range(i + 1, n)`, in order. */
  function Row(i: nat, n: nat): (ps: seq<(nat, nat)>)
    ensures forall p :: p in ps <==> p.0 == i && i < p.1 < n
    ensures forall k :: 0 <= k < |ps| ==> ps[k] == (i, i + 1 + k)
  {
    var ps := seq(if i < n then n - i - 1 else 0, (k: int) => (i, i + 1 + k));
    RowMembers(i, n, ps);
    ps
  }

  /** The pairs `(i, i + 1), ..., (i, n - 1)` are exactly those with first index `i` and
      second index between `i` and `n`. */
  lemma RowMembers(i: nat, n: nat, ps: seq<(nat, nat)>)
    requires |ps| == (if i < n then n - i - 1 else 0)
    requires forall k :: 0 <= k < |ps| ==> ps[k] == (i, i + 1 + k)
    ensures forall p :: p in ps <==> p.0 == i && i < p.1 < n
  {
    forall p: (nat, nat) | p.0 == i && i < p.1 < n
      ensures p in ps
    {
      assert ps[p.1 - i - 1] == p;
    }
  }

  /** The pairs the outer loop produces for `i` in `range(m)`, in order. */
  function PairsBefore(m: nat, n: nat): seq<(nat, nat)>
  {
    if m == 0 then [] else PairsBefore(m - 1, n) + Row(m - 1, n)
  }

  /** The pairs of indices `detect_global_conjunctions` visits for `n` objects. */
  function Pairs(n: nat): seq<(nat, nat)>
  {
    PairsBefore(n, n)
  }

  predicate LexLess(p: (nat, nat), q: (nat, nat))
  {
    p.0 < q.0 || (p.0 == q.0 && p.1 < q.1)
  }

  lemma {:induction false} PairsBeforeSpec(m: nat, n: nat)
    ensures forall p :: p in PairsBefore(m, n) <==> p.0 < m && p.0 < p.1 < n
    ensures forall a, b :: 0 <= a < b < |PairsBefore(m, n)| ==> LexLess(PairsBefore(m, n)[a], PairsBefore(m, n)[b])
  {
    if m > 0 {
      PairsBeforeSpec(m - 1, n);
      var prev := PairsBefore(m - 1, n);
      var row := Row(m - 1, n);
      var all := PairsBefore(m, n);
      assert all == prev + row;
      forall p: (nat, nat) | p.0 < m && p.0 < p.1 < n
        ensures p in all
      {
        if p.0 == m - 1 {
          assert row[p.1 - m] == p;
        } else {
          assert p in prev;
        }
      }
      forall a, b | 0 <= a < b < |all|
        ensures LexLess(all[a], all[b])
      {
        if b < |prev| {
          assert all[a] == prev[a] && all[b] == prev[b];
        } else if a < |prev| {
          assert all[a] == prev[a] && prev[a] in prev;
        }
      }
    }
  }

  /** Every unordered pair of distinct indices is visited, and only those: `(i, j)` occurs
      exactly when `i < j < n`. The visits are in strictly increasing order, so no pair is
      visited twice. */
  lemma PairsSpec(n: nat)
    ensures forall p :: p in Pairs(n) <==> p.0 < p.1 < n
    ensures forall a, b :: 0 <= a < b < |Pairs(n)| ==> LexLess(Pairs(n)[a], Pairs(n)[b])
    ensures forall a, b :: 0 <= a < b < |Pairs(n)| ==> Pairs(n)[a] != Pairs(n)[b]
  {
    PairsBeforeSpec(n, n);
  }

  predicate InRange(ps: seq<(nat, nat)>, n: nat)
  {
    forall k :: 0 <= k < |ps| ==> ps[k].0 < n && ps[k].1 < n
  }

  lemma PairsInRange(n: nat)
    ensures InRange(Pairs(n), n)
  {
    PairsSpec(n);
    assert forall k :: 0 <= k < |Pairs(n)| ==> Pairs(n)[k] in Pairs(n);
  }

  /** The row stored for pair `p`, if any. */
  function Screened(objs: seq<TleObject>, probe: PairProbe, start: int, end: int, p: (nat, nat)): (rows: seq<Conjunction>)
    requires p.0 < |objs| && p.1 < |objs|
    ensures |rows| <= 1
    ensures rows != [] <==> Close(PairApproach(objs[p.0], objs[p.1], probe, start, end))
    ensures rows != [] ==>
              && Below(rows[0].closestDistanceKm, ThresholdKm)
              && rows[0].object1Id == objs[p.0].id && rows[0].object2Id == objs[p.1].id
  {
    var a := PairApproach(objs[p.0], objs[p.1], probe, start, end);
    if Close(a) then [StoreConjunction(objs[p.0], objs[p.1], a)] else []
  }

  /** The rows added to the session while visiting the pairs `ps`, in order. */
  function Screen(objs: seq<TleObject>, probe: PairProbe, start: int, end: int, ps: seq<(nat, nat)>): (rows: seq<Conjunction>)
    requires InRange(ps, |objs|)
    ensures |rows| <= |ps|
  {
    if ps == [] then []
    else Screen(objs, probe, start, end, ps[..|ps| - 1]) + Screened(objs, probe, start, end, ps[|ps| - 1])
  }

  /** A row is stored exactly for each visited pair whose closest approach is within the
      threshold, and it is the row built from that pair and its approach. */
  lemma {:induction false} ScreenSpec(objs: seq<TleObject>, probe: PairProbe, start: int, end: int, ps: seq<(nat, nat)>)
    requires InRange(ps, |objs|)
    ensures forall c :: c in Screen(objs, probe, start, end, ps) <==>
              exists k :: 0 <= k < |ps| && Close(PairApproach(objs[ps[k].0], objs[ps[k].1], probe, start, end))
                          && c == StoreConjunction(objs[ps[k].0], objs[ps[k].1], PairApproach(objs[ps[k].0], objs[ps[k].1], probe, start, end))
  {
    if ps != [] {
      var init := ps[..|ps| - 1];
      ScreenSpec(objs, probe, start, end, init);
      assert forall k :: 0 <= k < |init| ==> init[k] == ps[k];
    }
  }

  /** Every stored row has a finite distance below 10 km, so its probability is one of the
      three upper steps: the `0.1` step is never stored. */
  lemma StoredRowsAreClose(objs: seq<TleObject>, probe: PairProbe, start: int, end: int, ps: seq<(nat, nat)>)
    requires InRange(ps, |objs|)
    ensures forall c :: c in Screen(objs, probe, start, end, ps) ==>
              && c.closestDistanceKm.Km? && c.closestDistanceKm.km < ThresholdKm
              && (c.probability == 0.9 || c.probability == 0.6 || c.probability == 0.3)
              && c.conjunctionTime.Some? && start <= c.conjunctionTime.value <= end
  {
    ScreenSpec(objs, probe, start, end, ps);
    forall c | c in Screen(objs, probe, start, end, ps)
      ensures c.closestDistanceKm.Km? && c.closestDistanceKm.km < ThresholdKm
      ensures c.probability == 0.9 || c.probability == 0.6 || c.probability == 0.3
      ensures c.conjunctionTime.Some? && start <= c.conjunctionTime.value <= end
    {
      var k :| 0 <= k < |ps| && Close(PairApproach(objs[ps[k].0], objs[ps[k].1], probe, start, end))
               && c == StoreConjunction(objs[ps[k].0], objs[ps[k].1], PairApproach(objs[ps[k].0], objs[ps[k].1], probe, start, end));
      ClosestApproachSpec(ProbeFor(probe, objs[ps[k].0], objs[ps[k].1]), start, end, 10);
    }
  }

  lemma ScreenAppend(objs: seq<TleObject>, probe: PairProbe, start: int, end: int, ps: seq<(nat, nat)>, p: (nat, nat))
    requires InRange(ps, |objs|) && p.0 < |objs| && p.1 < |objs|
    ensures InRange(ps + [p], |objs|)
    ensures Screen(objs, probe, start, end, ps + [p]) == Screen(objs, probe, start, end, ps) + Screened(objs, probe, start, end, p)
  {
    assert (ps + [p])[..|ps|] == ps;
  }

  /** The inner loop's pair `(i, j)` extends the pairs visited so far by one. */
  lemma ScreenRowStep(objs: seq<TleObject>, probe: PairProbe, start: int, end: int, i: nat, j: nat)
    requires i < j < |objs| && InRange(PairsBefore(i, |objs|) + Row(i, j), |objs|)
    ensures InRange(PairsBefore(i, |objs|) + Row(i, j + 1), |objs|)
    ensures Screen(objs, probe, start, end, PairsBefore(i, |objs|) + Row(i, j + 1))
         == Screen(objs, probe, start, end, PairsBefore(i, |objs|) + Row(i, j)) + Screened(objs, probe, start, end, (i, j))
  {
    var ps := PairsBefore(i, |objs|) + Row(i, j);
    assert PairsBefore(i, |objs|) + Row(i, j + 1) == ps + [(i, j)];
    ScreenAppend(objs, probe, start, end, ps, (i, j));
  }

  /** The inner loop for `i` starts from the pairs of the earlier rows and ends with row `i`. */
  lemma ScreenRowBounds(objs: seq<TleObject>, i: nat)
    requires i < |objs| && InRange(PairsBefore(i, |objs|), |objs|)
    ensures PairsBefore(i, |objs|) + Row(i, i + 1) == PairsBefore(i, |objs|)
    ensures PairsBefore(i, |objs|) + Row(i, |objs|) == PairsBefore(i + 1, |objs|)
  {
    assert Row(i, i + 1) == [];
  }

  /** The nested loop of lines 121-129 over `objs`, from `start` to `end`. */
  method ScreenPairs(objs: seq<TleObject>, probe: PairProbe, start: int, end: int) returns (stored: seq<Conjunction>)
    ensures InRange(Pairs(|objs|), |objs|)
    ensures stored == Screen(objs, probe, start, end, Pairs(|objs|))
  {
    var n := |objs|;
    stored := [];
    var i := 0;
    while i < n
      invariant i <= n
      invariant InRange(PairsBefore(i, n), n)
      invariant stored == Screen(objs, probe, start, end, PairsBefore(i, n))
    {
      ScreenRowBounds(objs, i);
      var j := i + 1;
      while j < n
        invariant i + 1 <= j <= n
        invariant InRange(PairsBefore(i, n) + Row(i, j), n)
        invariant stored == Screen(objs, probe, start, end, PairsBefore(i, n) + Row(i, j))
      {
        var obj1 := objs[i];
        var obj2 := objs[j];
        var approach := SimulateClosestApproach(ProbeFor(probe, obj1, obj2), start, end);
        assert approach == PairApproach(obj1, obj2, probe, start, end);
        ScreenRowStep(objs, probe, start, end, i, j);
        if approach.minDist.Km? && approach.minDist.km < ThresholdKm {
          stored := stored + [StoreConjunction(obj1, obj2, approach)];
        }
        j := j + 1;
      }
      i := i + 1;
    }
  }

  /** The rows the pair loop adds for the objects `all`, screened from `now` to seven days
      on: each closer than 10 km, at a time inside the window. */
  function ScreenAll(all: seq<TleObject>, probe: PairProbe, now: int): (rows: seq<Conjunction>)
    ensures forall c :: c in rows ==>
              && Below(c.closestDistanceKm, ThresholdKm)
              && c.conjunctionTime.Some? && now <= c.conjunctionTime.value <= now + WindowMicros
  {
    PairsInRange(|all|);
    StoredRowsAreClose(all, probe, now, now + WindowMicros, Pairs(|all|));
    Screen(all, probe, now, now + WindowMicros, Pairs(|all|))
  }

  lemma ScreenAllWindow(all: seq<TleObject>, probe: PairProbe, now: int, end: int)
    requires end == now + WindowMicros
    ensures InRange(Pairs(|all|), |all|)
    ensures ScreenAll(all, probe, now) == Screen(all, probe, now, end, Pairs(|all|))
  {
    PairsInRange(|all|);
  }

  lemma PairAt(n: nat, k: nat)
    requires k < |Pairs(n)|
    ensures Pairs(n)[k].0 < Pairs(n)[k].1 < n
  {
    PairsSpec(n);
    assert Pairs(n)[k] in Pairs(n);
  }

  lemma PairIndex(n: nat, i: nat, j: nat) returns (k: nat)
    requires i < j < n
    ensures k < |Pairs(n)| && Pairs(n)[k] == (i, j)
  {
    PairsSpec(n);
    assert (i, j) in Pairs(n);
    k :| 0 <= k < |Pairs(n)| && Pairs(n)[k] == (i, j);
  }

  /** The visited pair a stored row comes from. */
  lemma ScreenedFrom(objs: seq<TleObject>, probe: PairProbe, start: int, end: int, ps: seq<(nat, nat)>, c: Conjunction)
    returns (k: nat)
    requires InRange(ps, |objs|) && c in Screen(objs, probe, start, end, ps)
    ensures k < |ps| && Close(PairApproach(objs[ps[k].0], objs[ps[k].1], probe, start, end))
    ensures c == StoreConjunction(objs[ps[k].0], objs[ps[k].1], PairApproach(objs[ps[k].0], objs[ps[k].1], probe, start, end))
  {
    ScreenSpec(objs, probe, start, end, ps);
    k :| 0 <= k < |ps| && Close(PairApproach(objs[ps[k].0], objs[ps[k].1], probe, start, end))
         && c == StoreConjunction(objs[ps[k].0], objs[ps[k].1], PairApproach(objs[ps[k].0], objs[ps[k].1], probe, start, end));
  }

  /** The row a close visited pair stores. */
  lemma ScreenedHas(objs: seq<TleObject>, probe: PairProbe, start: int, end: int, ps: seq<(nat, nat)>, k: nat)
    requires InRange(ps, |objs|) && k < |ps| && Close(PairApproach(objs[ps[k].0], objs[ps[k].1], probe, start, end))
    ensures StoreConjunction(objs[ps[k].0], objs[ps[k].1], PairApproach(objs[ps[k].0], objs[ps[k].1], probe, start, end))
            in Screen(objs, probe, start, end, ps)
  {
    ScreenSpec(objs, probe, start, end, ps);
  }

  /** Each row of `ScreenAll` belongs to a pair `i < j` of the list whose closest approach
      comes within 10 km. */
  lemma ScreenAllSound(all: seq<TleObject>, probe: PairProbe, now: int, c: Conjunction)
    requires c in ScreenAll(all, probe, now)
    ensures exists i, j :: 0 <= i < j < |all| && Close(PairApproach(all[i], all[j], probe, now, now + WindowMicros))
                           && c == StoreConjunction(all[i], all[j], PairApproach(all[i], all[j], probe, now, now + WindowMicros))
  {
    var end := now + WindowMicros;
    ScreenAllWindow(all, probe, now, end);
    var k := ScreenedFrom(all, probe, now, end, Pairs(|all|), c);
    PairAt(|all|, k);
    var i, j := Pairs(|all|)[k].0, Pairs(|all|)[k].1;
    assert 0 <= i < j < |all| && Close(PairApproach(all[i], all[j], probe, now, end))
           && c == StoreConjunction(all[i], all[j], PairApproach(all[i], all[j], probe, now, end));
  }

  /** Every pair `i < j` of the list whose closest approach comes within 10 km has its row. */
  lemma ScreenAllComplete(all: seq<TleObject>, probe: PairProbe, now: int, i: nat, j: nat)
    requires i < j < |all| && Close(PairApproach(all[i], all[j], probe, now, now + WindowMicros))
    ensures StoreConjunction(all[i], all[j], PairApproach(all[i], all[j], probe, now, now + WindowMicros)) in ScreenAll(all, probe, now)
  {
    var end := now + WindowMicros;
    ScreenAllWindow(all, probe, now, end);
    var k := PairIndex(|all|, i, j);
    ScreenedHas(all, probe, now, end, Pairs(|all|), k);
  }

  /** The rows `detect_global_conjunctions()` adds at time `now`, or the error the first
      failing load raises. */
  function DetectOutcome(now: int, activeContent: Option<seq<string>>, debrisContent: Option<seq<string>>,
                         parse: SatelliteParser, probe: PairProbe): (r: Result<seq<Conjunction>, LoadError>)
    ensures r.Err? <==> LoadOutcome(ActiveFile, activeContent, LoadLimit, parse).Err?
                        || LoadOutcome(DebrisFile, debrisContent, LoadLimit, parse).Err?
    ensures r.Ok? ==> forall c :: c in r.value ==>
              && Below(c.closestDistanceKm, ThresholdKm)
              && c.conjunctionTime.Some? && now <= c.conjunctionTime.value <= now + WindowMicros
  {
    match LoadOutcome(ActiveFile, activeContent, LoadLimit, parse)
    case Err(e) => Err(e)
    case Ok(satellites) =>
      match LoadOutcome(DebrisFile, debrisContent, LoadLimit, parse)
      case Err(e) => Err(e)
      case Ok(debris) => Ok(ScreenAll(satellites + debris, probe, now))
  }

  /** `detect_global_conjunctions()`, with the clock read passed in as `now` and the two
      cached files' lines as `activeContent` and `debrisContent`. */
  method DetectGlobalConjunctions(now: int, activeContent: Option<seq<string>>, debrisContent: Option<seq<string>>,
                                  parse: SatelliteParser, probe: PairProbe)
    returns (r: Result<seq<Conjunction>, LoadError>)
    ensures r == DetectOutcome(now, activeContent, debrisContent, parse, probe)
  {
    var endTime := now + WindowMicros;
    var satellites := LoadTleObjects(ActiveFile, activeContent, LoadLimit, parse);
    if satellites.Err? {
      return Err(satellites.error);
    }
    var debris := LoadTleObjects(DebrisFile, debrisContent, LoadLimit, parse);
    if debris.Err? {
      return Err(debris.error);
    }
    var allObjects := satellites.value + debris.value;
    var stored := ScreenPairs(allObjects, probe, now, endTime);
    ScreenAllWindow(allObjects, probe, now, endTime);
    return Ok(stored);
  }

  /** A run raises what the first failing load raises, the satellites' file first. */
  lemma DetectFails(now: int, activeContent: Option<seq<string>>, debrisContent: Option<seq<string>>,
                    parse: SatelliteParser, probe: PairProbe)
    ensures LoadOutcome(ActiveFile, activeContent, LoadLimit, parse).Err? ==>
              DetectOutcome(now, activeContent, debrisContent, parse, probe) == Err(LoadOutcome(ActiveFile, activeContent, LoadLimit, parse).error)
    ensures LoadOutcome(ActiveFile, activeContent, LoadLimit, parse).Ok? && LoadOutcome(DebrisFile, debrisContent, LoadLimit, parse).Err? ==>
              DetectOutcome(now, activeContent, debrisContent, parse, probe) == Err(LoadOutcome(DebrisFile, debrisContent, LoadLimit, parse).error)
  {
  }

  /** A successful run screens at most 20 satellites, all typed satellite, followed by at
      most 20 debris objects, all typed debris. */
  lemma DetectSpec(now: int, activeContent: Option<seq<string>>, debrisContent: Option<seq<string>>,
                   parse: SatelliteParser, probe: PairProbe, satellites: seq<TleObject>, debris: seq<TleObject>)
    requires LoadOutcome(ActiveFile, activeContent, LoadLimit, parse) == Ok(satellites)
    requires LoadOutcome(DebrisFile, debrisContent, LoadLimit, parse) == Ok(debris)
    ensures DetectOutcome(now, activeContent, debrisContent, parse, probe) == Ok(ScreenAll(satellites + debris, probe, now))
    ensures |satellites| <= LoadLimit && |debris| <= LoadLimit
    ensures forall k :: 0 <= k < |satellites| ==> satellites[k].kind == SatelliteObject && satellites[k].id == k
    ensures forall k :: 0 <= k < |debris| ==> debris[k].kind == DebrisObject && debris[k].id == k
  {
    KindOfFiles();
    LoadOutcomeShape(ActiveFile, activeContent, LoadLimit, parse);
    LoadOutcomeShape(DebrisFile, debrisContent, LoadLimit, parse);
  }

  /** `'active' in tle_file` holds for the satellites' file and not for the debris file,
      which has no `v`. */
  lemma KindOfFiles()
    ensures KindOf(ActiveFile) == SatelliteObject && KindOf(DebrisFile) == DebrisObject
  {
    assert Text.OccursAt(ActiveFile, "active", 7);
    assert "active"[4] == 'v' && 'v' !in DebrisFile;
    Text.LackingCharNotContained(DebrisFile, "active", 4);
  }
}
