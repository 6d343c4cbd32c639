/** `simulate_closest_approach` of helper_functions.py: a running minimum of the distance
    between two objects over the sample times `start, start + step, ...` up to and
    including `end`. Times are integers in microseconds, as a `datetime` holds them; the
    skyfield positions, velocities and square roots of lines 37-49 are abstracted as a
    `Probe` that gives the sample at a time. */
module ClosestApproach {
  import opened Wrappers

  /** Lines 41-55 at one time: the distance between the two objects (km), the speed of
      each (km/s), and their relative speed (km/s). */
  datatype Sample = Sample(distance: real, speed1: real, speed2: real, relativeSpeed: real)

  /** The pair's sample at a UTC time given in whole seconds. */
  type Probe = int -> Sample

  /** `min_dist`, which starts as `float('inf')`. */
  datatype Distance = Infinity | Km(km: real)

  /** The tuple `(min_dist, conj_time, min_v1, min_v2, min_rel_vel)`. */
  datatype Approach = Approach(minDist: Distance, conjTime: Option<int>, v1: real, v2: real, relVel: real)

  /** What lines 31-33 initialise and what is returned when no time is sampled. */
  const NoApproach := Approach(Infinity, None, 0.0, 0.0, 0.0)

  const MicrosPerSecond := 1_000_000
  const MicrosPerMinute := 60 * MicrosPerSecond

  /** `timedelta(minutes=time_step_minutes)` in microseconds. */
  function Stride(stepMinutes: int): int
  {
    stepMinutes * MicrosPerMinute
  }

  /** Line 37 hands skyfield the time's fields down to `time.second`, so the sample is
      the one of the whole second the time falls in. */
  function SampleAt(probe: Probe, time: int): Sample
  {
    probe(time / MicrosPerSecond)
  }

  /** The time of the `k`-th turn of the loop. */
  function SampleTime(start: int, stride: int, k: nat): int
  {
    start + k * stride
  }

  function DistAt(probe: Probe, start: int, stride: int, k: nat): real
  {
    SampleAt(probe, SampleTime(start, stride, k)).distance
  }

  /** `dist < min_dist`. */
  predicate Closer(dist: real, minDist: Distance)
  {
    minDist.Infinity? || dist < minDist.km
  }

  /** The tuple lines 52-56 record for the sample at `time`. */
  function ApproachAt(probe: Probe, time: int): Approach
  {
    var s := SampleAt(probe, time);
    Approach(Km(s.distance), Some(time), s.speed1, s.speed2, s.relativeSpeed)
  }

  /** One turn of the loop: lines 51-56. Afterwards `min_dist` is finite and no greater than
      either the sample's distance or the previous minimum; the tuple is replaced, with
      `conj_time` set to this time, exactly when the sample is strictly closer, and is
      otherwise left as it was. */
  function Visit(a: Approach, probe: Probe, time: int): (r: Approach)
    ensures r.minDist.Km? && r.minDist.km <= SampleAt(probe, time).distance
    ensures a.minDist.Km? ==> r.minDist.km <= a.minDist.km
    ensures Closer(SampleAt(probe, time).distance, a.minDist) ==> r.conjTime == Some(time)
    ensures !Closer(SampleAt(probe, time).distance, a.minDist) ==> r == a
  {
    if Closer(SampleAt(probe, time).distance, a.minDist) then ApproachAt(probe, time) else a
  }

  /** The tuple after the first `n` turns of the loop. */
  function Scan(probe: Probe, start: int, stride: int, n: nat): Approach
  {
    if n == 0 then NoApproach else Visit(Scan(probe, start, stride, n - 1), probe, SampleTime(start, stride, n - 1))
  }

  /** How many times `while time <= end_time` lets through. */
  function SampleCount(start: int, end: int, stride: int): nat
    requires stride > 0
  {
    if start > end then 0 else (end - start) / stride + 1
  }

  /** The value of `simulate_closest_approach(obj1, obj2, start, end, stepMinutes)`: the
      initial tuple when no time is sampled, and otherwise a finite `min_dist` with a
      `conj_time` inside the window. */
  function ClosestApproachOf(probe: Probe, start: int, end: int, stepMinutes: int): (r: Approach)
    requires start > end || stepMinutes > 0
    ensures start > end ==> r == NoApproach
    ensures start <= end ==> r.minDist.Km? && r.conjTime.Some? && start <= r.conjTime.value <= end
  {
    if start > end then NoApproach
    else
      ScanInWindow(probe, start, end, Stride(stepMinutes));
      Scan(probe, start, Stride(stepMinutes), SampleCount(start, end, Stride(stepMinutes)))
  }

  /** A scan over a non-empty window records a sample inside it. */
  lemma ScanInWindow(probe: Probe, start: int, end: int, stride: int)
    requires stride > 0 && start <= end
    ensures var a := Scan(probe, start, stride, SampleCount(start, end, stride));
      a.minDist.Km? && a.conjTime.Some? && start <= a.conjTime.value <= end
  {
    var n := SampleCount(start, end, stride);
    ScanFinds(probe, start, stride, n);
    var k :| EarliestAmong(probe, start, stride, n, k) && Scan(probe, start, stride, n) == ApproachAt(probe, SampleTime(start, stride, k));
    SampleWindow(start, end, stride, k);
    SampleTimeMonotone(start, stride, 0, k);
  }

  /** Sample `k` is the earliest of the first `n` samples with the least distance. */
  ghost predicate EarliestAmong(probe: Probe, start: int, stride: int, n: nat, k: nat)
  {
    && k < n
    && (forall j: nat :: j < n ==> DistAt(probe, start, stride, k) <= DistAt(probe, start, stride, j))
    && (forall j: nat :: j < k ==> DistAt(probe, start, stride, k) < DistAt(probe, start, stride, j))
  }

  /** Sample `k` is sampled, and is the earliest of the samples up to `end` with the least
      distance. */
  ghost predicate EarliestClosest(probe: Probe, start: int, end: int, stride: int, k: nat)
  {
    && SampleTime(start, stride, k) <= end
    && (forall j: nat :: SampleTime(start, stride, j) <= end ==> DistAt(probe, start, stride, k) <= DistAt(probe, start, stride, j))
    && (forall j: nat :: j < k ==> DistAt(probe, start, stride, k) < DistAt(probe, start, stride, j))
  }

  lemma SampleTimeMonotone(start: int, stride: int, i: nat, j: nat)
    requires stride > 0 && i <= j
    ensures SampleTime(start, stride, i) <= SampleTime(start, stride, j)
  {
    assert j * stride == i * stride + (j - i) * stride;
  }

  /** The loop samples exactly the times `start + k * stride` that do not pass `end`. */
  lemma SampleWindow(start: int, end: int, stride: int, k: nat)
    requires stride > 0
    ensures k < SampleCount(start, end, stride) <==> SampleTime(start, stride, k) <= end
  {
    if start <= end {
      var q := (end - start) / stride;
      assert q * stride <= end - start < q * stride + stride;
      if k <= q {
        SampleTimeMonotone(start, stride, k, q);
      } else {
        SampleTimeMonotone(start, stride, q + 1, k);
        assert SampleTime(start, stride, q + 1) == start + q * stride + stride;
      }
    }
  }

  /** After `n > 0` turns the tuple is that of the earliest sample with the least distance;
      with no turn it is the initial one. */
  lemma {:induction false} ScanFinds(probe: Probe, start: int, stride: int, n: nat)
    ensures n == 0 ==> Scan(probe, start, stride, n) == NoApproach
    ensures n > 0 ==> exists k :: EarliestAmong(probe, start, stride, n, k)
                                  && Scan(probe, start, stride, n) == ApproachAt(probe, SampleTime(start, stride, k))
  {
    if n == 1 {
      assert Scan(probe, start, stride, 1) == ApproachAt(probe, SampleTime(start, stride, 0));
      assert EarliestAmong(probe, start, stride, 1, 0);
    } else if n > 1 {
      ScanFinds(probe, start, stride, n - 1);
      var k :| EarliestAmong(probe, start, stride, n - 1, k) && Scan(probe, start, stride, n - 1) == ApproachAt(probe, SampleTime(start, stride, k));
      ScanStep(probe, start, stride, n - 1, k);
    }
  }

  /** One more turn of the loop keeps the tuple that of the earliest closest sample. */
  lemma ScanStep(probe: Probe, start: int, stride: int, n: nat, k: nat)
    requires EarliestAmong(probe, start, stride, n, k)
    requires Scan(probe, start, stride, n) == ApproachAt(probe, SampleTime(start, stride, k))
    ensures exists k' :: EarliestAmong(probe, start, stride, n + 1, k')
                         && Scan(probe, start, stride, n + 1) == ApproachAt(probe, SampleTime(start, stride, k'))
  {
    var t := SampleTime(start, stride, n);
    assert DistAt(probe, start, stride, n) == SampleAt(probe, t).distance;
    if Closer(SampleAt(probe, t).distance, Scan(probe, start, stride, n).minDist) {
      EarliestExtends(probe, start, stride, n, k);
      assert Scan(probe, start, stride, n + 1) == ApproachAt(probe, t);
    } else {
      assert EarliestAmong(probe, start, stride, n + 1, k);
    }
  }

  /** A new sample strictly closer than the earliest closest of the first `n` samples is
      the earliest closest of the first `n + 1`. */
  lemma EarliestExtends(probe: Probe, start: int, stride: int, n: nat, k: nat)
    requires EarliestAmong(probe, start, stride, n, k)
    requires DistAt(probe, start, stride, n) < DistAt(probe, start, stride, k)
    ensures EarliestAmong(probe, start, stride, n + 1, n)
  {
    forall j: nat | j < n
      ensures DistAt(probe, start, stride, n) < DistAt(probe, start, stride, j)
    {
      assert DistAt(probe, start, stride, k) <= DistAt(probe, start, stride, j);
    }
  }

  /** What lines 31-58 promise: with `start > end` the initial tuple comes back; otherwise
      the tuple is that of the earliest sample whose distance is no greater than that of
      any sample, so `min_dist` is finite and `conj_time` is set. */
  lemma ClosestApproachSpec(probe: Probe, start: int, end: int, stepMinutes: int)
    requires start > end || stepMinutes > 0
    ensures start > end ==> ClosestApproachOf(probe, start, end, stepMinutes) == NoApproach
    ensures ClosestApproachOf(probe, start, end, stepMinutes).minDist.Km? <==> start <= end
    ensures ClosestApproachOf(probe, start, end, stepMinutes).conjTime.Some? <==> start <= end
    ensures start <= end ==>
              exists k :: EarliestClosest(probe, start, end, Stride(stepMinutes), k)
                          && ClosestApproachOf(probe, start, end, stepMinutes) == ApproachAt(probe, SampleTime(start, Stride(stepMinutes), k))
  {
    if start <= end {
      var stride := Stride(stepMinutes);
      var n := SampleCount(start, end, stride);
      ScanFinds(probe, start, stride, n);
      var k :| EarliestAmong(probe, start, stride, n, k) && Scan(probe, start, stride, n) == ApproachAt(probe, SampleTime(start, stride, k));
      SampleWindow(start, end, stride, k);
      forall j: nat | SampleTime(start, stride, j) <= end
        ensures DistAt(probe, start, stride, k) <= DistAt(probe, start, stride, j)
      {
        SampleWindow(start, end, stride, j);
      }
      assert EarliestClosest(probe, start, end, stride, k);
    }
  }

  /** The earliest closest sample is unique, so the specification above fixes the result. */
  lemma EarliestClosestUnique(probe: Probe, start: int, end: int, stride: int, k1: nat, k2: nat)
    requires EarliestClosest(probe, start, end, stride, k1) && EarliestClosest(probe, start, end, stride, k2)
    ensures k1 == k2
  {
  }

  /** `simulate_closest_approach(obj1, obj2, start_time, end_time, time_step_minutes)`.
      A step that is not positive makes the source loop forever unless no time is sampled. */
  method SimulateClosestApproach(probe: Probe, startTime: int, endTime: int, stepMinutes: int := 10)
    returns (r: Approach)
    requires startTime > endTime || stepMinutes > 0
    ensures r == ClosestApproachOf(probe, startTime, endTime, stepMinutes)
    ensures startTime > endTime ==> r == NoApproach
    ensures startTime <= endTime ==>
              exists k :: EarliestClosest(probe, startTime, endTime, Stride(stepMinutes), k)
                          && r == ApproachAt(probe, SampleTime(startTime, Stride(stepMinutes), k))
  {
    var minDist := Infinity;
    var conjTime: Option<int> := None;
    var minV1, minV2, minRelVel := 0.0, 0.0, 0.0;
    var stride := stepMinutes * MicrosPerMinute;
    var time := startTime;
    ghost var n: nat := 0;
    while time <= endTime
      invariant time <= endTime ==> stride > 0
      invariant time == SampleTime(startTime, stride, n)
      invariant startTime <= endTime ==> stride > 0 && SampleCount(startTime, endTime, stride) >= n
      invariant startTime > endTime ==> n == 0
      invariant Approach(minDist, conjTime, minV1, minV2, minRelVel) == Scan(probe, startTime, stride, n)
      decreases endTime - time
    {
      SampleWindow(startTime, endTime, stride, n);
      var sample := probe(time / MicrosPerSecond);
      var dist := sample.distance;
      var relVel := sample.relativeSpeed;
      if Closer(dist, minDist) {
        minDist := Km(dist);
        conjTime := Some(time);
        minV1 := sample.speed1;
        minV2 := sample.speed2;
        minRelVel := relVel;
      }
      time := time + stride;
      n := n + 1;
    }
    if startTime <= endTime {
      SampleWindow(startTime, endTime, stride, n);
    }
    r := Approach(minDist, conjTime, minV1, minV2, minRelVel);
    ClosestApproachSpec(probe, startTime, endTime, stepMinutes);
  }
}
