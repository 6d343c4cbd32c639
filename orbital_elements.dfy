/** The `/api/satellites/orbital-elements` feed of app.py: the cached TLE file is read,
    blank lines are dropped, every complete triple that skyfield accepts becomes a record
    with `id = i // 3`, the records are sorted by `(orbitType, -riskFactor)` with Python's
    stable `list.sort`, and the first 100 are returned. */
module OrbitalElements {
  import opened Wrappers
  import Text
  import opened Triples
  import opened OrbitRisk

  const ResponseLimit: nat := 100

  /** What skyfield gives for one triple: the SGP4 record's fields (`a` in Earth radii; mean
      motion in rad/s and the period in minutes as the source converts them) and the current
      position with its norm. */
  datatype Propagation = Propagation(
    a: real, eccentricity: real, inclination: real, rightAscension: real,
    argumentOfPerigee: real, meanAnomaly: real, meanMotion: real, period: real,
    epoch: real, x: real, y: real, z: real, radius: real, noradId: nat)

  /** One record of the feed (the constant `"type": "satellite"` is not carried). */
  datatype OrbitalRecord = OrbitalRecord(
    id: nat, name: string, semiMajorAxis: real, eccentricity: real, inclination: real,
    rightAscension: real, argumentOfPerigee: real, meanAnomaly: real, meanMotion: real,
    period: real, epoch: real, x: real, y: real, z: real,
    orbitType: OrbitClass, riskFactor: real, noradId: nat)

  /** `EarthSatellite(line1, line2, name, ts)` and everything computed from it in the `try`
      block before the record is built; `None` when any of it raises. */
  type Propagator = (string, string, string) -> Option<Propagation>

  /** Why opening or reading `cached_active.tle` raised: `FileNotFoundError`, or another
      error (`PermissionError`, `UnicodeDecodeError`, ...). */
  datatype ReadFailure = FileNotFound | OtherReadError

  /** The handled outcome (the 500 response for a missing file) and the error that escapes
      the handler, which catches `FileNotFoundError` only. */
  datatype ElementsError = CachedFileNotFound | UncaughtReadError

  /** The record the `try` block for triple `k` appends; `draws(k)` is the
      `random.uniform(0.7, 1.3)` value drawn while building it. */
  function RecordAt(lines: seq<string>, propagate: Propagator, draws: nat -> real, k: nat): (r: Option<OrbitalRecord>)
    ensures r.Some? <==>
              Complete(lines, k) && propagate(Text.Strip(lines[3 * k]), Text.Strip(lines[3 * k + 1]), Text.Strip(lines[3 * k + 2])).Some?
    ensures r.Some? ==>
              && r.value.id == k && r.value.name == Text.Strip(lines[3 * k])
              && r.value.orbitType == ClassifyOrbit(r.value.semiMajorAxis - EarthRadiusKm)
              && 5.0 <= r.value.riskFactor <= 95.0
  {
    if !Complete(lines, k) then None
    else
      var name := Text.Strip(lines[3 * k]);
      match propagate(name, Text.Strip(lines[3 * k + 1]), Text.Strip(lines[3 * k + 2]))
      case None => None
      case Some(p) =>
        var semiMajorAxis := p.a * EarthEquatorialRadiusKm;
        Some(OrbitalRecord(
          k, name, semiMajorAxis, p.eccentricity, p.inclination, p.rightAscension,
          p.argumentOfPerigee, p.meanAnomaly, p.meanMotion, p.period, p.epoch, p.x, p.y, p.z,
          ClassifyOrbit(semiMajorAxis - EarthRadiusKm),
          CollisionRisk(p.radius - EarthRadiusKm, draws(k)), p.noradId))
  }

  function RecordOutcomes(lines: seq<string>, propagate: Propagator, draws: nat -> real): nat -> Option<OrbitalRecord>
  {
    (k: nat) => RecordAt(lines, propagate, draws, k)
  }

  /** `orbital_data` after the loop has visited triples `0 .. k - 1`. */
  function RecordsUpTo(lines: seq<string>, propagate: Propagator, draws: nat -> real, k: nat): seq<OrbitalRecord>
  {
    Gather(RecordOutcomes(lines, propagate, draws), k)
  }

  /** `orbital_data` once the loop of lines 182-230 is done. */
  function Records(lines: seq<string>, propagate: Propagator, draws: nat -> real): seq<OrbitalRecord>
  {
    RecordsUpTo(lines, propagate, draws, TripleCount(|lines|))
  }

  lemma RecordsUpToStep(lines: seq<string>, propagate: Propagator, draws: nat -> real, k: nat)
    ensures var r := RecordAt(lines, propagate, draws, k);
      RecordsUpTo(lines, propagate, draws, k + 1)
        == RecordsUpTo(lines, propagate, draws, k) + (if r.Some? then [r.value] else [])
  {
  }

  /** The `try` block of lines 184-230 for the triple starting at line `i`. */
  method TryElementsTriple(lines: seq<string>, i: nat, ghost k: nat, propagate: Propagator, draws: nat -> real)
    returns (record: Option<OrbitalRecord>)
    requires i == 3 * k
    ensures record == RecordAt(lines, propagate, draws, k)
  {
    assert i / 3 == k;
    record := None;
    if i + 2 < |lines| {
      var name := Text.Strip(lines[i]);
      var line1 := Text.Strip(lines[i + 1]);
      var line2 := Text.Strip(lines[i + 2]);
      var propagation := propagate(name, line1, line2);
      if propagation.Some? {
        var p := propagation.value;
        var semiMajorAxis := p.a * EarthEquatorialRadiusKm;
        record := Some(OrbitalRecord(
          i / 3, name, semiMajorAxis, p.eccentricity, p.inclination, p.rightAscension,
          p.argumentOfPerigee, p.meanAnomaly, p.meanMotion, p.period, p.epoch, p.x, p.y, p.z,
          ClassifyOrbit(semiMajorAxis - EarthRadiusKm),
          CollisionRisk(p.radius - EarthRadiusKm, draws(i / 3)), p.noradId));
      }
    }
  }

  /** The loop of lines 182-230. */
  method BuildOrbitalData(lines: seq<string>, propagate: Propagator, draws: nat -> real)
    returns (orbitalData: seq<OrbitalRecord>)
    ensures orbitalData == Records(lines, propagate, draws)
  {
    orbitalData := [];
    var i := 0;
    ghost var k: nat := 0;
    while i < |lines|
      invariant i == 3 * k && i < |lines| + 3
      invariant orbitalData == RecordsUpTo(lines, propagate, draws, k)
    {
      RecordsUpToStep(lines, propagate, draws, k);
      var record := TryElementsTriple(lines, i, k, propagate, draws);
      if record.Some? {
        orbitalData := orbitalData + [record.value];
      }
      i, k := i + 3, k + 1;
    }
    TripleCountAt(|lines|, k);
  }

  function IdOf(r: OrbitalRecord): nat { r.id }

  /** Before sorting, ids are the triple indices of the cleaned lines, strictly increasing,
      a skipped triple's id is never reused, and every record's classification and risk are
      those of `classify_orbit` and `calculate_collision_risk`. */
  lemma RecordsShape(lines: seq<string>, propagate: Propagator, draws: nat -> real)
    ensures var rs := Records(lines, propagate, draws);
      forall a, b :: 0 <= a < b < |rs| ==> rs[a].id < rs[b].id
    ensures var rs := Records(lines, propagate, draws);
      forall r :: r in rs ==> Complete(lines, r.id) && RecordAt(lines, propagate, draws, r.id) == Some(r)
    ensures var rs := Records(lines, propagate, draws);
      forall k: nat :: k < TripleCount(|lines|) && RecordAt(lines, propagate, draws, k).Some? ==>
        RecordAt(lines, propagate, draws, k).value in rs
    ensures var rs := Records(lines, propagate, draws);
      forall r :: r in rs ==> r.orbitType == ClassifyOrbit(r.semiMajorAxis - EarthRadiusKm) && 5.0 <= r.riskFactor <= 95.0
  {
    var f := RecordOutcomes(lines, propagate, draws);
    assert forall k: nat :: f(k) == RecordAt(lines, propagate, draws, k);
    assert forall k: nat :: f(k).Some? ==> IdOf(f(k).value) == k;
    GatherTagged(f, IdOf, TripleCount(|lines|));
  }

  // ---- the sort of line 233 ----

  /** The sort key `(orbitType, -riskFactor if riskFactor else 0)`, with the label replaced
      by its rank in string order (`LabelRankIsStringOrder`). */
  type Key = (nat, real)

  /** `-riskFactor if riskFactor else 0`. */
  function RiskKey(riskFactor: real): (r: real)
    ensures r == -riskFactor
  {
    if riskFactor != 0.0 then -riskFactor else 0.0
  }

  function KeyOf(r: OrbitalRecord): Key
  {
    (LabelRank(r.orbitType), RiskKey(r.riskFactor))
  }

  /** Python's `<` on the key tuples. */
  predicate KeyLess(a: Key, b: Key)
  {
    a.0 < b.0 || (a.0 == b.0 && a.1 < b.1)
  }

  /** No record is preceded by one whose key is larger. */
  predicate Sorted(s: seq<OrbitalRecord>)
  {
    forall i, j :: 0 <= i < j < |s| ==> !KeyLess(KeyOf(s[j]), KeyOf(s[i]))
  }

  /** The records of `s` whose key is `k`, in their order in `s`. */
  function KeyClass(s: seq<OrbitalRecord>, k: Key): seq<OrbitalRecord>
  {
    if s == [] then []
    else (if KeyOf(s[0]) == k then [s[0]] else []) + KeyClass(s[1..], k)
  }

  /** Place `x` before the first record whose key is not smaller than its own. */
  function Insert(x: OrbitalRecord, s: seq<OrbitalRecord>): seq<OrbitalRecord>
  {
    if s == [] || !KeyLess(KeyOf(s[0]), KeyOf(x)) then [x] + s
    else [s[0]] + Insert(x, s[1..])
  }

  lemma {:induction false} InsertPermutes(x: OrbitalRecord, s: seq<OrbitalRecord>)
    ensures multiset(Insert(x, s)) == multiset([x] + s)
  {
    if s != [] && KeyLess(KeyOf(s[0]), KeyOf(x)) {
      InsertPermutes(x, s[1..]);
      assert s == [s[0]] + s[1..];
    }
  }

  /** Every record of `Insert(x, s)` is `x` or a record of `s`. */
  lemma {:induction false} InsertMembers(x: OrbitalRecord, s: seq<OrbitalRecord>)
    ensures forall y :: y in Insert(x, s) ==> y == x || y in s
  {
    if s != [] && KeyLess(KeyOf(s[0]), KeyOf(x)) {
      InsertMembers(x, s[1..]);
      assert forall y :: y in s[1..] ==> y in s;
    }
  }

  /** A sorted sequence stays sorted under a head whose key is no larger than any other. */
  lemma SortedCons(h: OrbitalRecord, t: seq<OrbitalRecord>)
    requires Sorted(t) && forall y :: y in t ==> !KeyLess(KeyOf(y), KeyOf(h))
    ensures Sorted([h] + t)
  {
    var r := [h] + t;
    forall i, j | 0 <= i < j < |r| ensures !KeyLess(KeyOf(r[j]), KeyOf(r[i])) {
      if i == 0 { assert r[j] in t; } else { assert r[i] == t[i - 1] && r[j] == t[j - 1]; }
    }
  }

  lemma SortedTail(s: seq<OrbitalRecord>)
    requires Sorted(s) && s != []
    ensures Sorted(s[1..])
    ensures forall y :: y in s[1..] ==> !KeyLess(KeyOf(y), KeyOf(s[0]))
  {
    forall y | y in s[1..] ensures !KeyLess(KeyOf(y), KeyOf(s[0])) {
      var j :| 0 <= j < |s[1..]| && s[1..][j] == y;
      assert s[j + 1] == y;
    }
  }

  lemma {:induction false} InsertSorted(x: OrbitalRecord, s: seq<OrbitalRecord>)
    requires Sorted(s)
    ensures Sorted(Insert(x, s))
  {
    if s == [] {
      SortedCons(x, s);
    } else if KeyLess(KeyOf(s[0]), KeyOf(x)) {
      SortedTail(s);
      InsertSorted(x, s[1..]);
      InsertMembers(x, s[1..]);
      SortedCons(s[0], Insert(x, s[1..]));
    } else {
      SortedTail(s);
      SortedCons(x, s);
    }
  }

  /** Inserting never reorders records of one key class: `x` lands in front of its equals. */
  lemma {:induction false} InsertKeepsClasses(x: OrbitalRecord, s: seq<OrbitalRecord>, k: Key)
    ensures KeyClass(Insert(x, s), k) == KeyClass([x] + s, k)
  {
    if s != [] && KeyLess(KeyOf(s[0]), KeyOf(x)) {
      InsertKeepsClasses(x, s[1..], k);
      assert ([s[0]] + Insert(x, s[1..]))[1..] == Insert(x, s[1..]);
      assert ([x] + s[1..])[1..] == s[1..];
      assert ([x] + s)[1..] == s;
      assert ([s[0]] + s[1..]) == s;
    }
  }

  /** Python's stable `list.sort(key=...)`: the result is ordered by key, is a permutation of
      the input, and keeps every key class in input order. */
  function SortByKey(s: seq<OrbitalRecord>): (r: seq<OrbitalRecord>)
    ensures Sorted(r)
    ensures multiset(r) == multiset(s)
    ensures forall k :: KeyClass(r, k) == KeyClass(s, k)
  {
    if s == [] then []
    else
      var t := SortByKey(s[1..]);
      InsertSorted(s[0], t);
      InsertPermutes(s[0], t);
      assert s == [s[0]] + s[1..];
      forall k ensures KeyClass(Insert(s[0], t), k) == KeyClass(s, k) {
        InsertKeepsClasses(s[0], t, k);
        assert ([s[0]] + t)[1..] == t;
      }
      Insert(s[0], t)
  }

  lemma KeyClassCons(x: OrbitalRecord, s: seq<OrbitalRecord>, k: Key)
    ensures KeyClass([x] + s, k) == (if KeyOf(x) == k then [x] else []) + KeyClass(s, k)
  {
    assert ([x] + s)[0] == x && ([x] + s)[1..] == s;
  }

  lemma {:induction false} KeyClassAppend(a: seq<OrbitalRecord>, b: seq<OrbitalRecord>, k: Key)
    ensures KeyClass(a + b, k) == KeyClass(a, k) + KeyClass(b, k)
  {
    if a == [] {
      assert a + b == b;
    } else {
      KeyClassAppend(a[1..], b, k);
      KeyClassAppendStep(a, b, k);
    }
  }

  lemma KeyClassAppendStep(a: seq<OrbitalRecord>, b: seq<OrbitalRecord>, k: Key)
    requires a != [] && KeyClass(a[1..] + b, k) == KeyClass(a[1..], k) + KeyClass(b, k)
    ensures KeyClass(a + b, k) == KeyClass(a, k) + KeyClass(b, k)
  {
    assert a == [a[0]] + a[1..];
    assert a + b == [a[0]] + (a[1..] + b);
    KeyClassCons(a[0], a[1..], k);
    KeyClassCons(a[0], a[1..] + b, k);
  }

  lemma {:induction false} KeyClassMembers(s: seq<OrbitalRecord>, k: Key)
    ensures forall x :: x in KeyClass(s, k) ==> x in s && KeyOf(x) == k
  {
    if s != [] { KeyClassMembers(s[1..], k); }
  }

  /** Record `s[i]` of key `k` sits in `KeyClass(s, k)` at the number of key-`k` records
      before it, and that number grows past every further record of key `k`. */
  lemma KeyClassPosition(s: seq<OrbitalRecord>, k: Key, i: nat, j: nat)
    requires i < j < |s| && KeyOf(s[i]) == k && KeyOf(s[j]) == k
    ensures |KeyClass(s[..i], k)| < |KeyClass(s[..j], k)| < |KeyClass(s, k)|
    ensures KeyClass(s, k)[|KeyClass(s[..i], k)|] == s[i]
    ensures KeyClass(s, k)[|KeyClass(s[..j], k)|] == s[j]
  {
    assert s == s[..i] + ([s[i]] + s[i + 1..]);
    assert s[..j] == s[..i] + ([s[i]] + s[i + 1..j]);
    assert s == s[..j] + ([s[j]] + s[j + 1..]);
    KeyClassAppend(s[..i], [s[i]] + s[i + 1..], k);
    KeyClassAppend([s[i]], s[i + 1..], k);
    KeyClassAppend(s[..i], [s[i]] + s[i + 1..j], k);
    KeyClassAppend([s[i]], s[i + 1..j], k);
    KeyClassAppend(s[..j], [s[j]] + s[j + 1..], k);
    KeyClassAppend([s[j]], s[j + 1..], k);
    assert ([s[i]] + s[i + 1..])[1..] == s[i + 1..];
    assert ([s[i]] + s[i + 1..j])[1..] == s[i + 1..j];
    assert ([s[j]] + s[j + 1..])[1..] == s[j + 1..];
  }

  predicate IdsIncreasing(s: seq<OrbitalRecord>)
  {
    forall a, b :: 0 <= a < b < |s| ==> s[a].id < s[b].id
  }

  lemma {:induction false} KeyClassIdsIncreasing(s: seq<OrbitalRecord>, k: Key)
    requires IdsIncreasing(s)
    ensures IdsIncreasing(KeyClass(s, k))
  {
    if s != [] {
      KeyClassIdsIncreasing(s[1..], k);
      KeyClassMembers(s[1..], k);
      var rest := KeyClass(s[1..], k);
      forall x | x in rest ensures s[0].id < x.id {
        var j :| 0 <= j < |s[1..]| && s[1..][j] == x;
        assert s[j + 1] == x;
      }
      var c := KeyClass(s, k);
      forall a, b | 0 <= a < b < |c| ensures c[a].id < c[b].id {
        if KeyOf(s[0]) == k {
          if a == 0 { assert c[b] == rest[b - 1] && c[b] in rest; } else { assert c[a] == rest[a - 1] && c[b] == rest[b - 1]; }
        } else {
          assert c == rest;
        }
      }
    }
  }

  /** What the feed returns: at most 100 records, ordered by `(orbitType, -riskFactor)`,
      each one a record built from the cleaned file, and records whose keys tie keep the
      order of the file (increasing id), as the stable sort promises. */
  lemma ElementsResponseOrder(lines: seq<string>, propagate: Propagator, draws: nat -> real)
    ensures var r := Prefix(SortByKey(Records(lines, propagate, draws)), ResponseLimit);
      && |r| <= ResponseLimit
      && Sorted(r)
      && (forall x :: x in r ==> x in Records(lines, propagate, draws))
      && (forall i, j :: 0 <= i < j < |r| && KeyOf(r[i]) == KeyOf(r[j]) ==> r[i].id < r[j].id)
  {
    var built := Records(lines, propagate, draws);
    var sorted := SortByKey(built);
    var r := Prefix(sorted, ResponseLimit);
    RecordsShape(lines, propagate, draws);
    forall x | x in r ensures x in built {
      assert x in multiset(sorted);
    }
    forall i, j | 0 <= i < j < |r| && KeyOf(r[i]) == KeyOf(r[j]) ensures r[i].id < r[j].id {
      var k := KeyOf(r[i]);
      assert r[i] == sorted[i] && r[j] == sorted[j];
      KeyClassPosition(sorted, k, i, j);
      KeyClassIdsIncreasing(built, k);
      assert KeyClass(sorted, k) == KeyClass(built, k);
    }
  }

  /** `get_orbital_elements`: `fileLines` is the content of `cached_active.tle` split into
      lines, or the error reading it raised. A missing file gives the 500 response; any other
      read error escapes. */
  method GetOrbitalElements(fileLines: Result<seq<string>, ReadFailure>, propagate: Propagator, draws: nat -> real)
    returns (response: Result<seq<OrbitalRecord>, ElementsError>)
    ensures fileLines == Err(FileNotFound) <==> response == Err(CachedFileNotFound)
    ensures fileLines == Err(OtherReadError) <==> response == Err(UncaughtReadError)
    ensures fileLines.Ok? ==>
              response == Ok(Prefix(SortByKey(Records(Text.NonBlankLines(fileLines.value), propagate, draws)), ResponseLimit))
  {
    if fileLines.Err? {
      return Err(if fileLines.error == FileNotFound then CachedFileNotFound else UncaughtReadError);
    }
    var lines := Text.NonBlankLines(fileLines.value);
    var orbitalData := BuildOrbitalData(lines, propagate, draws);
    orbitalData := SortByKey(orbitalData);
    response := Ok(Prefix(orbitalData, ResponseLimit));
  }
}
