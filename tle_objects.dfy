/** `load_tle_objects` of helper_functions.py: read a TLE file, drop blank lines, and turn
    the first `limit` triples into objects tagged with their triple index and with a type
    taken from the file name. Unlike the loaders of app.py there is no `try`: a missing
    line or a triple skyfield rejects makes the whole call raise. */
module TleObjects {
  import opened Wrappers
  import Text
  import opened Triples

  datatype ObjectType = SatelliteObject | DebrisObject

  /** The part of skyfield's `EarthSatellite` the screening reads directly: its SGP4 record's
      semi-major axis `model.a`, in Earth radii. */
  datatype SatModel = SatModel(a: real)

  datatype TleObject = TleObject(id: nat, name: string, sat: SatModel, kind: ObjectType)

  /** Why the call raised: the file could not be opened, triple `triple` lacks a line
      (`IndexError`), or skyfield rejected it. */
  datatype LoadError = FileUnreadable | MissingLine(triple: nat) | RejectedTle(triple: nat)

  /** `EarthSatellite(line1, line2, name, ts)`; `None` when it raises. */
  type SatelliteParser = (string, string, string) -> Option<SatModel>

  /** `'satellite' if 'active' in tle_file else 'debris'`. */
  function KindOf(tleFile: string): (kind: ObjectType)
    ensures kind == SatelliteObject <==> exists i :: Text.OccursAt(tleFile, "active", i)
  {
    Text.ContainsSpec(tleFile, "active");
    if Text.Contains(tleFile, "active") then SatelliteObject else DebrisObject
  }

  /** The number of triples `range(0, min(len(lines), limit * 3), 3)` visits. */
  function LoadCount(n: nat, limit: int): (count: nat)
    ensures count <= n && (limit <= 0 ==> count == 0) && (limit > 0 ==> count <= limit)
  {
    var bound := if n < limit * 3 then n else limit * 3;
    if bound <= 0 then 0 else TripleCount(bound)
  }

  /** What `EarthSatellite` gives for triple `k`, `None` when an index or the library raises. */
  function TripleSat(lines: seq<string>, parse: SatelliteParser, k: nat): Option<SatModel>
  {
    if Complete(lines, k) then
      parse(Text.Strip(lines[3 * k]), Text.Strip(lines[3 * k + 1]), Text.Strip(lines[3 * k + 2]))
    else None
  }

  predicate AllLoad(lines: seq<string>, parse: SatelliteParser, count: nat)
  {
    forall k: nat :: k < count ==> TripleSat(lines, parse, k).Some?
  }

  function ObjectAt(tleFile: string, lines: seq<string>, parse: SatelliteParser, k: nat): TleObject
    requires TripleSat(lines, parse, k).Some?
  {
    TleObject(k, Text.Strip(lines[3 * k]), TripleSat(lines, parse, k).value, KindOf(tleFile))
  }

  /** The list that is returned when no triple raises: one object per visited triple, at
      most `limit` of them, each with its triple index as id, named by the triple's first
      line, holding what `EarthSatellite` built from that triple, and typed `satellite`
      exactly when the file name contains `active`. */
  function LoadedObjects(tleFile: string, lines: seq<string>, parse: SatelliteParser, limit: int): (objects: seq<TleObject>)
    requires AllLoad(lines, parse, LoadCount(|lines|, limit))
    ensures |objects| == LoadCount(|lines|, limit) && |objects| <= (if limit < 0 then 0 else limit)
    ensures forall k :: 0 <= k < |objects| ==>
              && objects[k].id == k
              && Complete(lines, k) && objects[k].name == Text.Strip(lines[3 * k])
              && TripleSat(lines, parse, k) == Some(objects[k].sat)
              && (objects[k].kind == SatelliteObject <==> Text.Contains(tleFile, "active"))
  {
    Text.ContainsSpec(tleFile, "active");
    seq(LoadCount(|lines|, limit), (k: int) requires 0 <= k < LoadCount(|lines|, limit) => ObjectAt(tleFile, lines, parse, k))
  }

  /** `[line for line in f.read().strip().splitlines() if line.strip()]`, given the file's lines. */
  function CleanLines(content: seq<string>): seq<string>
  {
    Text.NonBlankLines(content)
  }

  /** The first of the first `count` triples that raises, if any. */
  function FirstFailure(lines: seq<string>, parse: SatelliteParser, count: nat): (f: Option<nat>)
    ensures f.None? <==> AllLoad(lines, parse, count)
    ensures f.Some? ==> f.value < count && TripleSat(lines, parse, f.value).None? && AllLoad(lines, parse, f.value)
  {
    if count == 0 then None
    else
      match FirstFailure(lines, parse, count - 1)
      case Some(k) => Some(k)
      case None => if TripleSat(lines, parse, count - 1).None? then Some(count - 1) else None
  }

  /** The outcome of `load_tle_objects(tle_file, limit)` when the file's lines are `content`
      (`None` when it cannot be opened). An unreadable file raises; otherwise the call
      succeeds exactly when each of the first `LoadCount` triples loads, with the objects
      of those triples, and else raises at the first triple that does not load, with an
      `IndexError` exactly when that triple lacks a line. */
  function LoadOutcome(tleFile: string, content: Option<seq<string>>, limit: int, parse: SatelliteParser): (r: Result<seq<TleObject>, LoadError>)
    ensures content.None? ==> r == Err(FileUnreadable)
    ensures content.Some? ==>
              (r.Ok? <==> AllLoad(CleanLines(content.value), parse, LoadCount(|CleanLines(content.value)|, limit)))
    ensures r.Ok? ==> content.Some? && r.value == LoadedObjects(tleFile, CleanLines(content.value), parse, limit)
    ensures r.Err? && content.Some? ==>
              var lines := CleanLines(content.value);
              && r.error != FileUnreadable
              && r.error.triple < LoadCount(|lines|, limit)
              && TripleSat(lines, parse, r.error.triple).None?
              && (r.error.MissingLine? <==> !Complete(lines, r.error.triple))
              && AllLoad(lines, parse, r.error.triple)
  {
    if content.None? then Err(FileUnreadable)
    else
      var lines := CleanLines(content.value);
      match FirstFailure(lines, parse, LoadCount(|lines|, limit))
      case None => Ok(LoadedObjects(tleFile, lines, parse, limit))
      case Some(k) => Err(if Complete(lines, k) then RejectedTle(k) else MissingLine(k))
  }

  /** The body of the loop of lines 17-27 for the triple starting at line `i`. */
  method LoadTriple(tleFile: string, lines: seq<string>, i: nat, ghost k: nat, parse: SatelliteParser)
    returns (r: Result<TleObject, LoadError>)
    requires i == 3 * k && i < |lines|
    ensures r.Ok? <==> TripleSat(lines, parse, k).Some?
    ensures r.Ok? ==> r.value == ObjectAt(tleFile, lines, parse, k)
    ensures r.Err? ==> r.error == (if Complete(lines, k) then RejectedTle(k) else MissingLine(k))
  {
    assert i / 3 == k;
    if i + 2 >= |lines| {
      return Err(MissingLine(i / 3));
    }
    var name := Text.Strip(lines[i]);
    var line1 := Text.Strip(lines[i + 1]);
    var line2 := Text.Strip(lines[i + 2]);
    var sat := parse(name, line1, line2);
    if sat.None? {
      return Err(RejectedTle(i / 3));
    }
    return Ok(TleObject(i / 3, name, sat.value, KindOf(tleFile)));
  }

  /** The first failing triple is the earliest triple that raises. */
  lemma {:induction false} FirstFailureAt(lines: seq<string>, parse: SatelliteParser, count: nat, k: nat)
    requires k < count && AllLoad(lines, parse, k) && TripleSat(lines, parse, k).None?
    ensures FirstFailure(lines, parse, count) == Some(k)
  {
    if k < count - 1 {
      FirstFailureAt(lines, parse, count - 1, k);
    }
  }

  /** `load_tle_objects(tle_file, limit)`; `content` is the file split into lines, `None`
      when opening it raises. */
  method LoadTleObjects(tleFile: string, content: Option<seq<string>>, limit: int, parse: SatelliteParser)
    returns (r: Result<seq<TleObject>, LoadError>)
    ensures r == LoadOutcome(tleFile, content, limit, parse)
  {
    if content.None? {
      return Err(FileUnreadable);
    }
    var lines := CleanLines(content.value);
    var bound := if |lines| < limit * 3 then |lines| else limit * 3;
    var objects := [];
    var i := 0;
    ghost var k: nat := 0;
    ghost var count := LoadCount(|lines|, limit);
    while i < bound
      invariant i == 3 * k && k <= count
      invariant AllLoad(lines, parse, k)
      invariant |objects| == k && forall j :: 0 <= j < k ==> objects[j] == ObjectAt(tleFile, lines, parse, j)
    {
      TripleCountSpec(bound, k);
      assert k < count;
      var loaded := LoadTriple(tleFile, lines, i, k, parse);
      if loaded.Err? {
        FirstFailureAt(lines, parse, count, k);
        return Err(loaded.error);
      }
      objects := objects + [loaded.value];
      i, k := i + 3, k + 1;
    }
    if bound > 0 { TripleCountSpec(bound, k); }
    assert k == count;
    assert objects == LoadedObjects(tleFile, lines, parse, limit);
    return Ok(objects);
  }

  /** A successful load yields at most `limit` objects, numbered by position, all of the
      type the file name gives. */
  lemma LoadOutcomeShape(tleFile: string, content: Option<seq<string>>, limit: int, parse: SatelliteParser)
    ensures var r := LoadOutcome(tleFile, content, limit, parse);
      r.Ok? ==>
        && |r.value| <= (if limit < 0 then 0 else limit)
        && forall k :: 0 <= k < |r.value| ==> r.value[k].id == k && r.value[k].kind == KindOf(tleFile)
  {
    if content.Some? {
      var lines := CleanLines(content.value);
      if AllLoad(lines, parse, LoadCount(|lines|, limit)) {
        Text.ContainsSpec(tleFile, "active");
      }
    }
  }
}
