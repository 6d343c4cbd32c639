# Orbit sentinel backend: a Dafny model of its decision rules

The backend in `backend/app.py` and `backend/helper_functions.py` serves satellite data to
a 3D viewer and screens objects for close approaches. Most of it is plumbing: HTTP fetches
from CelesTrak, a TLE file cache, the skyfield SGP4 library and SQLAlchemy. This project
models the rules inside that plumbing and proves what they promise:

- **Orbit classification and risk.** `classify_orbit` sorts an altitude into LEO/MEO/GEO.
  `calculate_risk_factor` is a clamped piecewise-linear score. `calculate_collision_risk` is
  a step base risk times a random modifier, clamped to [5, 95]. Module `OrbitRisk`.
- **The live feed and its cache** (`/api/satellites`). A module-level cache is rebuilt only
  when more than 30 seconds old. It is rebuilt from the fetched TLE lines three at a time,
  with `id = i // 3` and failed triples skipped, and cut to 100 records. Modules `Triples`
  and `SatelliteFeed`; the cache is the class `SatelliteFeed.SatelliteCache`.
- **The orbital-elements feed** (`/api/satellites/orbital-elements`). Blank lines are
  dropped, records are built per triple, sorted with Python's stable `list.sort` by
  `(orbitType, -riskFactor)`, and cut to 100. Module `OrbitalElements`.
- **Conjunction screening.** `load_tle_objects` groups lines into at most `limit` triples and
  types each object by the file name. `simulate_closest_approach` is a running minimum over
  time samples every 10 minutes. `estimate_probability` and `classify_orbit_zone` label a
  conjunction. `detect_global_conjunctions` visits every unordered pair and stores those
  closer than 10 km. Modules `TleObjects`, `ClosestApproach`, `Zones` and `Conjunctions`.
- Python's `str.strip`, `isspace`, substring test and string `<` are in module `Text`.
  `Option`/`Result` are in `Wrappers`.

Library calls become parameters of the model. `EarthSatellite(...)` and `.at(now)` are the
function types `Tracker`, `Propagator`, `SatelliteParser`, `Probe` and `PairProbe`. A `None`
result means the library raised. `random.uniform(0.7, 1.3)` is the sequence of draws
`draws: nat -> real`. The clocks (`time.time()`, `ts.now()`, `datetime.utcnow()`) are
inputs. Files and HTTP bodies enter as their lines. Times in the screening are integers in
microseconds, as a `datetime` holds them. The sample at a time is the one of its whole
second, because line 37 of `helper_functions.py` builds the skyfield time from the fields
down to `time.second`.

Where a loop in the source updates variables, the model has a `method` with that loop. Its
`ensures` ties the result to a specification function. The properties are proved as
lemmas about that function. `list.sort` is a library call; it is modelled as a pure stable
insertion sort whose contract is what Python documents (ordered, a permutation, stable).

## Model

| member | source | states |
|---|---|---|
| OrbitRisk.ClassifyOrbit | backend/app.py:112-118 | LEO exactly below 2000 km, MEO exactly in [2000, 35786), GEO exactly from 35786 up |
| OrbitRisk.ClassifyOrbitMonotone | backend/app.py:112-118 | a higher altitude never gets a lower class |
| OrbitRisk.LabelRankIsStringOrder | backend/app.py:233 | ordering by the `orbitType` string is ordering by GEO < LEO < MEO |
| OrbitRisk.RiskFactor | backend/app.py:88-99 | in [20, 90] below 500 km, in [10, 70] in [500, 2000), in [5, 28] from 2000 km |
| OrbitRisk.RiskFactorMonotoneInBand | backend/app.py:94-99 | within one altitude band the score never grows with altitude |
| OrbitRisk.RiskFactorRisesAt500 | backend/app.py:94-97 | the score jumps up at the 500 km band edge |
| OrbitRisk.BaseRisk | backend/app.py:152-159 | the base risk is one of 85, 70, 45, 20 |
| OrbitRisk.BaseRiskNonIncreasing | backend/app.py:152-159 | the base risk never grows with altitude |
| OrbitRisk.CollisionRisk | backend/app.py:147-165 | for every modifier the result is in [5, 95], and is base times modifier when that is already in range |
| OrbitRisk.CollisionRiskForDraws | backend/app.py:161-165 | for a draw in [0.7, 1.3] the result is at least 14, and exactly 20 times the draw from 2000 km |
| Text.TrimStartSpec | backend/app.py:60 | `lstrip` removes exactly the leading white space |
| Text.TrimEndSpec | backend/app.py:60 | `rstrip` removes exactly the trailing white space |
| Text.StripSpec | backend/app.py:60-62 | `strip` gives a slice of its input with no white space at either end, and is empty exactly for a blank line |
| Text.NonBlankLines | backend/app.py:174 | never yields more lines than it was given |
| Text.NonBlankLinesMembers | backend/app.py:174 | a line is in the result exactly when it is in the input and is not all white space |
| Text.NonBlankLinesSingle | backend/app.py:174 | one line is kept exactly when `line.strip()` is non-empty |
| Text.NonBlankLinesAppend | backend/app.py:174 | the filter of a concatenation is the concatenation of the filters, so order and repeats are kept |
| Text.ContainsSpec | backend/helper_functions.py:26 | `sub in s` holds exactly when `sub` occurs at some index of `s` |
| Text.LackingCharNotContained | backend/helper_functions.py:26 | a string lacking one character of `sub` does not contain `sub` |
| Text.LessIrreflexive | backend/app.py:233 | no string is `<` itself |
| Triples.TripleCountSpec | backend/app.py:58 | `range(0, n, 3)` visits triple `k` exactly when `3k < n` |
| Triples.GatherTagged | backend/app.py:58-81 | the records of the triple loop have strictly increasing ids; each one is what its own triple built; every triple that built a record is present |
| Triples.GatherNothing | backend/app.py:80-81 | when every triple raises, the list stays empty |
| Triples.Prefix | backend/app.py:83 | `s[:n]` has length `min(len(s), n)` and is the start of `s` |
| SatelliteFeed.AsWrittenClassification | backend/app.py:76 | as written, `classify_orbit` on the 3-element position array raises for every position, so the `orbitType` expression never yields a value |
| SatelliteFeed.ClassifyByAltitude | backend/app.py:76 | the corrected expression always yields a class, LEO exactly below 2000 km altitude |
| SatelliteFeed.ElementwiseLess | backend/app.py:113 | numpy's `array < bound` is an array of the same length holding each element's comparison |
| SatelliteFeed.ClassifyArrayScalar | backend/app.py:112-118 | on a one-element array `classify_orbit` gives the class of its element |
| SatelliteFeed.ClassifyArrayRaises | backend/app.py:112-118 | on an array of more than one element `classify_orbit` raises at its first `if` |
| SatelliteFeed.SatelliteAt | backend/app.py:59-79 | triple `k` builds a record exactly when it is complete, skyfield accepts it and the classification succeeds; the record has id `k`, the stripped name, the request time and a risk in [5, 90] |
| SatelliteFeed.SatellitesUpToStep | backend/app.py:58-81 | one more turn of the loop appends the record of that triple, if it built one |
| SatelliteFeed.TryTriple | backend/app.py:59-81 | the `try` block for the triple at line `3k` yields the record of triple `k`, or nothing when any step raises |
| SatelliteFeed.BuildSatellites | backend/app.py:58-81 | the loop builds exactly the records of the triples that do not raise, in triple order |
| SatelliteFeed.SatelliteOutcomesTagged | backend/app.py:69 | every record built for triple `k` has id `k` |
| SatelliteFeed.SatellitesShape | backend/app.py:58-81 | ids strictly increase; each record is its own triple's; every triple that built a record is present |
| SatelliteFeed.SatelliteRiskInRange | backend/app.py:77 | every risk factor of the feed is in [5, 90] |
| SatelliteFeed.CorrectedFeedClassifies | backend/app.py:76-77 | with the corrected classification each record's class and risk are those of its altitude |
| SatelliteFeed.AsWrittenFeedIsEmpty | backend/app.py:76-81 | as written, every rebuild yields the empty list |
| SatelliteFeed.SatelliteCache.constructor | backend/app.py:38-42 | the cache starts empty, updated at time 0, with a 30 second interval |
| SatelliteFeed.SatelliteCache.Serve | backend/app.py:44-86 | a refresh happens exactly when `now - last_update > 30`; it stores the first ≤100 built records and sets `last_update = now`; a request that raises leaves both fields unchanged and returns the error; otherwise nothing changes and the cached data is returned |
| SatelliteFeed.ServeTwice | backend/app.py:49-86 | after a refresh, a request within 30 seconds gets the same data, and one later than that gets the new listing's records; after a refresh whose request raised, the next request fetches again |
| OrbitalElements.RecordsUpToStep | backend/app.py:182-230 | one more turn of the loop appends the record of that triple, if it built one |
| OrbitalElements.RecordAt | backend/app.py:184-227 | triple `k` builds a record exactly when it is complete and skyfield accepts it; the record has id `k`, the stripped name, the class of `sma - 6371` and a risk in [5, 95] |
| OrbitalElements.TryElementsTriple | backend/app.py:184-230 | the `try` block for the triple at line `3k` yields the record of triple `k`, or nothing when any step raises |
| OrbitalElements.BuildOrbitalData | backend/app.py:182-230 | the loop builds exactly the records of the triples that do not raise, in triple order |
| OrbitalElements.RecordsShape | backend/app.py:182-230 | ids strictly increase and are never reused; every built triple is present; each class is `classify_orbit(sma - 6371)` and each risk is in [5, 95] |
| OrbitalElements.RiskKey | backend/app.py:233 | `-r if r else 0` equals `-r` for every risk value |
| OrbitalElements.InsertPermutes | backend/app.py:233 | one insertion step of the sort keeps the records as a multiset |
| OrbitalElements.InsertMembers | backend/app.py:233 | one insertion step adds no record but the inserted one |
| OrbitalElements.SortedCons | backend/app.py:233 | a smallest-key head keeps an ordered list ordered |
| OrbitalElements.SortedTail | backend/app.py:233 | the tail of an ordered list is ordered and no part of it sorts before the head |
| OrbitalElements.InsertSorted | backend/app.py:233 | one insertion step keeps the list ordered |
| OrbitalElements.InsertKeepsClasses | backend/app.py:233 | one insertion step keeps the order within every key class |
| OrbitalElements.SortByKey | backend/app.py:233 | `list.sort(key=...)` gives an ordered permutation that keeps every key class in input order |
| OrbitalElements.KeyClassCons | backend/app.py:233 | the key class of a list with a head is the head's contribution then the tail's |
| OrbitalElements.KeyClassAppend | backend/app.py:233 | the key class of a concatenation is the concatenation of key classes |
| OrbitalElements.KeyClassMembers | backend/app.py:233 | a key class holds only records of the list with that key |
| OrbitalElements.KeyClassPosition | backend/app.py:233 | two same-key records keep their order inside their key class |
| OrbitalElements.KeyClassIdsIncreasing | backend/app.py:233 | a key class of a list with increasing ids has increasing ids |
| OrbitalElements.ElementsResponseOrder | backend/app.py:233-235 | the response holds at most 100 records, ordered by `(orbitType, -riskFactor)`, all built from the file, and tied keys keep increasing ids |
| OrbitalElements.GetOrbitalElements | backend/app.py:167-235 | a missing file is exactly the 500 response; any other read error escapes; otherwise the first 100 of the sorted records built from the non-blank lines |
| TleObjects.KindOf | backend/helper_functions.py:26 | `'satellite'` exactly when the file name contains `active`, else `'debris'` |
| TleObjects.LoadCount | backend/helper_functions.py:17 | the loop visits no more triples than there are lines, none for a limit ≤ 0, and at most `limit` |
| TleObjects.LoadedObjects | backend/helper_functions.py:17-27 | one object per visited triple and at most `limit`; each id is its triple index, the name is the triple's first line, the model is what skyfield built from that triple, and the type is `satellite` exactly when the file name contains `active` |
| TleObjects.FirstFailure | backend/helper_functions.py:17-21 | finds nothing exactly when every visited triple loads; else the earliest triple that raises |
| TleObjects.FirstFailureAt | backend/helper_functions.py:17-21 | a raising triple with none before it is the first failure |
| TleObjects.LoadOutcome | backend/helper_functions.py:11-28 | an unreadable file raises; the call succeeds exactly when every visited triple loads, with their objects; else it raises at the first failing triple, `IndexError` exactly for a short triple |
| TleObjects.LoadTriple | backend/helper_functions.py:18-27 | the body for the triple at line `3k` yields object `k`, `IndexError` for a short triple, or the library's error |
| TleObjects.LoadTleObjects | backend/helper_functions.py:11-28 | the loop's outcome is `LoadOutcome` |
| TleObjects.LoadOutcomeShape | backend/helper_functions.py:17-27 | a successful load has at most `limit` objects, numbered by position, each typed by the file name |
| ClosestApproach.SampleTimeMonotone | backend/helper_functions.py:58 | sample times grow with the turn number |
| ClosestApproach.Visit | backend/helper_functions.py:51-56 | after a turn `min_dist` is finite and no greater than the sample's distance or the previous minimum; the tuple changes, to this time, exactly on a strict improvement |
| ClosestApproach.ClosestApproachOf | backend/helper_functions.py:30-60 | `(inf, None, 0, 0, 0)` when no time is sampled; otherwise a finite `min_dist` with `conj_time` inside `[start, end]` |
| ClosestApproach.ScanInWindow | backend/helper_functions.py:35-58 | a scan over a non-empty window records a sample inside it |
| ClosestApproach.SampleWindow | backend/helper_functions.py:35-58 | the loop samples exactly the times `start + k * step` not after `end` |
| ClosestApproach.ScanFinds | backend/helper_functions.py:35-58 | after `n > 0` turns the tuple is that of the earliest sample with the least distance; after none it is the initial tuple |
| ClosestApproach.ScanStep | backend/helper_functions.py:51-56 | one more turn keeps the tuple that of the earliest closest sample |
| ClosestApproach.EarliestExtends | backend/helper_functions.py:51-56 | a strictly closer new sample becomes the earliest closest one |
| ClosestApproach.ClosestApproachSpec | backend/helper_functions.py:30-60 | `start > end` gives `(inf, None, 0, 0, 0)`; otherwise `min_dist` is finite and `conj_time` set, and both are those of the earliest sample no farther than any sample |
| ClosestApproach.EarliestClosestUnique | backend/helper_functions.py:51-56 | the earliest closest sample is unique, so the result is determined |
| ClosestApproach.SimulateClosestApproach | backend/helper_functions.py:30-60 | the loop returns `(inf, None, 0, 0, 0)` when `start > end`, else the tuple of the earliest sample whose distance is ≤ every sampled distance |
| Zones.EstimateProbability | backend/helper_functions.py:62-70 | one of 0.9, 0.6, 0.3, 0.1; at least 0.6 exactly below 5 km |
| Zones.ProbabilityNonIncreasing | backend/helper_functions.py:62-70 | a closer approach never gets a lower probability |
| Zones.ProbabilityIgnoresVelocity | backend/helper_functions.py:62-70 | the relative velocity does not change the probability |
| Zones.ZoneOf | backend/helper_functions.py:77-85 | LEO exactly below 2000 km, MEO in [2000, 35786), GEO in [35786, 40000), HEO from 40000 km |
| Zones.ZoneMonotone | backend/helper_functions.py:77-85 | a higher altitude never gets a lower zone |
| Zones.ZoneAgreesWithClassifyOrbit | backend/helper_functions.py:77-85 | below 40000 km `zone` agrees with `classify_orbit` |
| Zones.AltitudeOf | backend/helper_functions.py:74-75 | the rough altitude is below 2000 km (or 40000 km) exactly when the semi-major axis is below 8371 km (or 46371 km) in Earth radii |
| Zones.ZoneOfAxisMonotone | backend/helper_functions.py:74-85 | a larger semi-major axis never gives a lower zone |
| Zones.ZoneNamedInverts | backend/helper_functions.py:77-85 | each zone name is three letters and reads back to its zone |
| Zones.OrbitZoneLabel | backend/helper_functions.py:72-90 | the label reads back to both objects' zones in argument order, and is a bare zone name exactly when they agree |
| Conjunctions.ProbabilityOf | backend/helper_functions.py:62-70 | the same steps run on a distance that may be `inf`: a finite distance gets `estimate_probability`, and `inf`, below no step, gets 0.1 |
| Conjunctions.StoreConjunction | backend/helper_functions.py:92-110 | the row carries both objects' ids and types and the approach's distance and time; its probability is above 0.1 exactly within 10 km and at least 0.6 exactly within 5 km; its zone label reads back to both zones in argument order |
| Conjunctions.Row | backend/helper_functions.py:122 | the inner loop for `i` visits exactly the pairs `(i, j)` with `i < j < n`, in increasing `j` |
| Conjunctions.RowMembers | backend/helper_functions.py:122 | the pairs `(i, i+1), ..., (i, n-1)` are exactly those with first index `i` and `i < j < n` |
| Conjunctions.PairsBeforeSpec | backend/helper_functions.py:121-122 | the first `m` outer turns visit exactly the pairs `i < j < n` with `i < m`, in increasing order |
| Conjunctions.PairsSpec | backend/helper_functions.py:121-122 | the pair loop visits every `(i, j)` with `i < j < n` and only those, no pair twice and no self-pair |
| Conjunctions.PairsInRange | backend/helper_functions.py:121-123 | every visited pair indexes the object list |
| Conjunctions.PairAt | backend/helper_functions.py:121-122 | each visited pair has `i < j < n` |
| Conjunctions.PairIndex | backend/helper_functions.py:121-122 | each pair `i < j < n` is visited at some turn |
| Conjunctions.PairApproach | backend/helper_functions.py:126 | with the default 10-minute step: the initial tuple for an empty window, else a finite distance reached at a time inside the window |
| Conjunctions.Screened | backend/helper_functions.py:126-129 | a pair stores at most one row, exactly when its approach is below 10 km, and that row names the pair's objects |
| Conjunctions.Screen | backend/helper_functions.py:121-129 | no more rows than visited pairs |
| Conjunctions.ScreenSpec | backend/helper_functions.py:121-129 | a row is stored exactly for each visited pair with `min_dist < 10`, and it is that pair's row |
| Conjunctions.ScreenedFrom | backend/helper_functions.py:128-129 | each stored row comes from a visited pair closer than 10 km |
| Conjunctions.ScreenedHas | backend/helper_functions.py:128-129 | each visited pair closer than 10 km has its row stored |
| Conjunctions.StoredRowsAreClose | backend/helper_functions.py:106-129 | every stored row has a finite distance below 10 km, a set conjunction time, and a probability of 0.9, 0.6 or 0.3 |
| Conjunctions.ScreenRowStep | backend/helper_functions.py:122-129 | one inner turn adds at most the row of pair `(i, j)` |
| Conjunctions.ScreenRowBounds | backend/helper_functions.py:121-122 | inner loop `i` starts after the earlier outer turns' pairs and ends with row `i` |
| Conjunctions.ScreenPairs | backend/helper_functions.py:121-129 | the nested loop stores the rows of `Screen` over all visited pairs, in visiting order |
| Conjunctions.ScreenAll | backend/helper_functions.py:115-129 | every row stored over the seven-day window is below 10 km at a time inside the window |
| Conjunctions.ScreenAllWindow | backend/helper_functions.py:115-126 | the screening window is `[now, now + 7 days]` |
| Conjunctions.ScreenAllSound | backend/helper_functions.py:121-129 | every stored row is that of a pair `i < j` whose approach within seven days is below 10 km |
| Conjunctions.ScreenAllComplete | backend/helper_functions.py:121-129 | every pair `i < j` whose approach within seven days is below 10 km has its row stored |
| Conjunctions.DetectGlobalConjunctions | backend/helper_functions.py:113-131 | the run's outcome is `DetectOutcome`: the load errors, or the screened rows of satellites then debris |
| Conjunctions.DetectOutcome | backend/helper_functions.py:113-131 | the run fails exactly when one of the two loads fails; a successful run stores only rows below 10 km timed inside the seven-day window |
| Conjunctions.DetectFails | backend/helper_functions.py:117-118 | a failing load raises its error, the satellites' file first |
| Conjunctions.DetectSpec | backend/helper_functions.py:113-119 | a successful run screens at most 20 satellites typed satellite, then at most 20 debris objects typed debris, each numbered by position in its file |
| Conjunctions.KindOfFiles | backend/helper_functions.py:117-118 | `cached_active.tle` gives satellites and `cached_iridium_debris.tle` gives debris |

## Left out

- Concurrency: Flask's threaded server can run two requests at once, and two stale requests can both refresh `satellite_cache`. The model serves requests one after another.
- numpy's truth value of an empty array (deprecated, false in older releases) is taken as false. The model never reaches it, since a position always has three coordinates.
- `requests.get` succeeding with an error status: the body is still split into lines like any other listing, as the source does.
- Network and file I/O: the CelesTrak request, reading the cached TLE files and the Celery task that writes them. Fetched and read content enters as a list of lines, and a request or read that raises enters as an error value.
- `str.splitlines` and the outer `strip()` of a whole file or response body: the model starts from the list of lines.
- Flask and Celery plumbing: routes, `jsonify`, CORS, the beat schedule, and the HTTP status of the error response (modelled as the `Err(CachedFileNotFound)` value).
- SQLAlchemy: `db.session.add` is modelled as appending the row to a list; `commit`, the `Conjunction` table and the `notes=None` column are not modelled. `detected_at=datetime.utcnow()` is a clock read and is not part of the row.
- The import `from app import db` in `backend/helper_functions.py:6` names something `backend/app.py` never defines. The model treats the screening functions as if the module had loaded.
- skyfield and SGP4: `EarthSatellite`, `.at`, `.position`, `.velocity` and `model.*` are function parameters. Their validity rules and numerics are not modelled.
- Square roots: distances, speeds and the position norm `radius` are taken as already computed by the library parameters.
- Unit conversions: the mean motion and period of `backend/app.py:201-204`, the degree conversion with 3.14159 and `now.tt` are carried as values the propagator gives. Their correctness depends on skyfield's units.
- Floating point: all quantities are exact `real`s. NaN and infinite distances from a failed propagation are not modelled; a sample always has a finite distance.
- Ids: the feeds' `str(i // 3)` ids are modelled as the natural number `i // 3`.
- `strip` follows Python's white space set for ASCII and the common Unicode spaces. Unicode categories beyond that set are not modelled.
- `list.sort`: modelled as a pure stable insertion sort with the contract Python documents. Timsort's in-place algorithm is not modelled.
- `get_real_time_positions` (`backend/app.py:121-145`) only echoes cached fields and is not modelled. Nor is `get_live_positions` (`backend/app.py:238-271`).
- The client-side viewer (propagation, camera, rendering, hit-testing) is not part of this model.
- ClosestApproach.SimulateClosestApproach: requires `start > end || stepMinutes > 0`. With a zero step and `start <= end` the source loops forever. With a negative step it walks back in time until `datetime` drops below year 1 and raises `OverflowError`. Neither case is modelled.
- `SatelliteFeed.SatelliteCache.Serve` uses the corrected classification; the as-written one is `AsWrittenClassification` (see Findings).

## Findings

| source | as written | input that shows it | evidently intended | confidence | as-written member | corrected member |
|---|---|---|---|---|---|---|
| backend/app.py:76 | `classify_orbit(geocentric.position.km)` passes the whole 3-element position array. `altitude < 2000` then compares element-wise, and `if` on the resulting array raises `ValueError`. The `except` at line 80 swallows it, so every triple is skipped and the live feed's cache is always `[]`. | any TLE listing with a triple skyfield accepts | classify the altitude `|position| - 6371`, as line 224 does for the elements feed | high, not executed | SatelliteFeed.AsWrittenFeedIsEmpty | SatelliteFeed.CorrectedFeedClassifies |
