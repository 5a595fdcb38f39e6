# cosmic-explorer: planet positions, orbits and scene bookkeeping in Dafny

This project models the computational core of cosmic-explorer, a web application that draws the
solar system:

- **The planetary-positions endpoint** (`GET /api/planets/positions?date=…`,
  `src/routes/api/planets/positions/+server.ts`). For each of the eight planets, one after the
  other, it asks the JPL Horizons service for a state vector.
  - Each request is retried with exponential backoff (`fetchWithRetry`).
  - Each text answer is cut into numbers (`parseHorizonsData`).
  - A complete answer is kept in an in-memory cache for one hour.
- **The orbit sampler and the position table** (`src/lib/utils/planet-calculator.ts`).
- **The planet catalog** (`src/lib/utils/planets.ts`).
- **The scene bookkeeping of `updatePlanets`** (`src/lib/three/solar-system.ts`). It drops the
  previous planet meshes and orbit lines from the scene and adds one per calculated planet,
  scaled by `SCALE = 4`.

## Files

| file | module | what it holds |
|---|---|---|
| `outcomes.dfy` | `Outcomes` | `Option` and `Result` for the error paths |
| `planets.dfy` | `Planets` | `PLANETS`, `PLANET_DETAILS` and their shape |
| `horizons_parser.dfy` | `HorizonsParser` | the parser: see below |
| `positions_endpoint.dfy` | `PositionsEndpoint` | see below |
| `planet_calculator.dfy` | `PlanetCalculator` | see below |
| `solar_system.dfy` | `SolarSystem` | see below |

**`horizons_parser.dfy`** models `parseHorizonsData` as pure functions:
- `split('\n')` and `findIndex`/`includes`;
- `trim`;
- the ECMAScript `split` with a regular expression, as its left-to-right matching loop;
- `filter(Boolean)`.

**`positions_endpoint.dfy`** holds:
- `PLANET_IDS`;
- `fetchWithRetry` as a loop proved against a recursive specification;
- the per-planet loop of `GET` as a loop proved against a recursive specification;
- the `GET` handler, as a class whose field is the cache map.

**`planet_calculator.dfy`** holds:
- `calculatePlanetPositions` and `calculateSolarSystem` as functions;
- `generateOrbitPoints` as a loop.

**`solar_system.dfy`** holds the `SolarSystem` class:
- `scene` is the set of objects added to the scene;
- `planets` and `orbits` are sequences;
- `updatePlanets` runs as its clearing loops followed by its `forEach`.

Inputs the code reads from the outside world are parameters of the model:
- **The network** is a function `Upstream` from a query and an attempt number to the outcome of
  that `fetch`: a response with its `ok` flag, status text and body, or a rejected promise.
- **The waits** (`delay`) are not slept but recorded, in order, as a list of milliseconds.
- **`Date.now()`** is read twice by `GET`. It becomes two parameters: `now` for the freshness
  test and `storedAt` for the cache write.
- **The JavaScript `Date` computation** turns the `date` parameter into the day before and the
  day itself as `YYYY-MM-DD`. It becomes a `Calendar` function, and `None` stands for the
  invalid date on which `toISOString` throws.
- **`Astronomy.HelioVector`** is a function `Ephemeris` from a body name and a time in days to
  a vector in AU.

The parser keeps each number as the text that `parseFloat` reads. A missing piece
(`parts[i]` is `undefined`) is `None`.

The endpoint's `GET` takes the parser as a parameter. With `ParseHorizonsDataAsWritten` it is
the handler as written; `RepeatedRequest` runs it with the corrected `ParseHorizonsData` (see
"## Findings"). Every request `GET` sends to Horizons is recorded, in order, with its attempt
number.

Some facts the proofs bring out about the code as written:
- The query asks for two days at a one-day step, so the answer holds two records. The parser
  reads the first one, the state on the day before the requested date; the second record is
  part of the lines that follow (`ParsesWellFormedResponse`).
- A `$$EOE` line only has to exist. Its position is never compared with the lines read after
  `$$SOE` (`EndMarkerPositionUnchecked`).
- The orbital-period table is keyed by capitalised names (`Mercury`, …).
  `calculateSolarSystem` passes the lower-case names of `PLANETS`, so every orbit is sampled
  over the fallback period of 365.26 days (`CatalogNamesGetDefaultPeriod`, `SolarSystemTable`).
- A cached answer is served only while it is strictly younger than one hour. An entry exactly
  one hour old is fetched again (`IsFresh`, used by `PositionsEndpoint.Get`).
- `fetchWithRetry` makes one attempt more than it waits when it waits at all. With the defaults
  it waits 1000 ms and then 2000 ms before throwing the third attempt's error.

## Model

| member | source | states |
|---|---|---|
| Planets.PlanetsAreEightDistinct | src/lib/utils/planets.ts:1-10 | `PLANETS` has exactly eight pairwise-distinct entries, mercury first, earth third and neptune last |
| Planets.DetailsCoverPlanets | src/lib/utils/planets.ts:20-29 | `PLANET_DETAILS` has an entry for exactly the planets of `PLANETS`, and each entry's `name` is its key |
| Planets.SizesArePositive | src/lib/utils/planets.ts:21-28 | every relative size is positive and the Earth's is exactly 1 |
| Planets.ColorsAreHex | src/lib/utils/planets.ts:21-28 | every colour is `#` followed by six hexadecimal digits |
| HorizonsParser.SplitOnChar | src/routes/api/planets/positions/+server.ts:71 | `split('\n')` gives at least one piece and no piece holds a line break |
| HorizonsParser.JoinSplit | src/routes/api/planets/positions/+server.ts:71 | joining the pieces of `split` with the separator gives the original text back |
| HorizonsParser.SplitJoin | src/routes/api/planets/positions/+server.ts:71 | splitting lines that hold no separator, once joined, gives exactly those lines back |
| HorizonsParser.ContainsIsOccurrence | src/routes/api/planets/positions/+server.ts:72-73 | `includes` holds exactly when the pattern occurs at some index of the line |
| HorizonsParser.FindIndex | src/routes/api/planets/positions/+server.ts:72-73 | `findIndex` gives the first index whose line contains the pattern, and -1 exactly when no line does |
| HorizonsParser.Trim | src/routes/api/planets/positions/+server.ts:82-83 | `trim` gives a contiguous part of the line with no whitespace at either end, and everything it removes before and after that part is whitespace. The result is empty exactly when the line is all whitespace |
| HorizonsParser.TrimOfTrimmed | src/routes/api/planets/positions/+server.ts:82-83 | a line with no whitespace at either end is its own trim |
| HorizonsParser.TrimIndented | src/routes/api/planets/positions/+server.ts:82-83 | a line indented with blanks whose text starts and ends with a non-blank trims to that text |
| HorizonsParser.DropEmpty | src/routes/api/planets/positions/+server.ts:85 | `filter(Boolean)` keeps only non-empty pieces of the input, keeps every non-empty piece, and gives no more pieces than there were |
| HorizonsParser.DropEmptyCounts | src/routes/api/planets/positions/+server.ts:85 | every non-empty piece is kept as often as it occurs, and no empty piece is kept |
| HorizonsParser.DropEmptyKeepsOrder | src/routes/api/planets/positions/+server.ts:85 | a single piece is kept exactly when it is non-empty, and a concatenation is filtered part by part, so the kept pieces stay in their order |
| HorizonsParser.MatchAt | src/routes/api/planets/positions/+server.ts:84 | a match of `lead [cls] \s*=\s*` is at least the label and `=` long and lies within the text |
| HorizonsParser.MatchAtIsLongestMatch | src/routes/api/planets/positions/+server.ts:84 | the match found at the start of a text is a match of the pattern and the longest one, and no prefix matches when none is found |
| HorizonsParser.SplitFrom | src/routes/api/planets/positions/+server.ts:84 | the split loop: scanning from the left, it cuts at each match found and resumes after it, and always gives at least one piece. What the pieces are is stated by `RegexSplitSplits` and `SplitsAsUnique` |
| HorizonsParser.RegexSplit | src/routes/api/planets/positions/+server.ts:84 | `split` with a regular expression: the split loop started with an empty piece. Its pieces are characterised by `RegexSplitSplits` and `SplitsAsUnique` |
| HorizonsParser.SplitFromPiece | src/routes/api/planets/positions/+server.ts:84 | characters read before the scan only lengthen the first piece; the other pieces are those of the split of the rest |
| HorizonsParser.RegexSplitSplits | src/routes/api/planets/positions/+server.ts:84 | for every text and pattern, the pieces, put back together with the matches found between them, rebuild the text. Each match is the one found where it starts and is never empty, and no match starts inside a piece |
| HorizonsParser.SplitsAsUnique | src/routes/api/planets/positions/+server.ts:84 | a text has only one such cut: pieces and matches that rebuild it under those conditions are the ones `split` gives |
| HorizonsParser.LocateLinesOutcome | src/routes/api/planets/positions/+server.ts:71-91 | the invalid-format error comes exactly when no line contains `$$SOE` or none contains `$$EOE`. Success comes exactly when the first `$$SOE` line is followed by three more lines, and then the second and third are read. Otherwise a line is missing |
| HorizonsParser.LocateLines | src/routes/api/planets/positions/+server.ts:71-91 | where the two data lines are found: the error cases and the lines read are stated by `LocateLinesOutcome` |
| HorizonsParser.ParseLines | src/routes/api/planets/positions/+server.ts:71-108 | the located position and velocity lines, each read into three fields; a location error is passed on unchanged |
| HorizonsParser.ParseWith | src/routes/api/planets/positions/+server.ts:70-109 | `parseHorizonsData` with the velocity pattern as a parameter: the text is split into lines and read. Its outcome on a response is stated by `ParseOfResponse` |
| HorizonsParser.ParseHorizonsDataAsWritten | src/routes/api/planets/positions/+server.ts:70-109 | `parseHorizonsData` exactly as written, with the velocity pattern `[VX\|VY\|VZ]\s*=\s*`. What it reads from a Horizons answer is stated by `AsWrittenMisreadsVelocity` |
| HorizonsParser.ParseHorizonsData | src/routes/api/planets/positions/+server.ts:70-109 | `parseHorizonsData` with the velocity pattern it intends, `V[XYZ]\s*=\s*`. What it reads from a Horizons answer is stated by `ParsesWellFormedResponse` |
| HorizonsParser.SeparatorsAvoidNumbers | src/routes/api/planets/positions/+server.ts:84-94 | none of the position, as-written velocity or intended velocity patterns can start inside a number or at a blank |
| HorizonsParser.LineFields | src/routes/api/planets/positions/+server.ts:82-106 | one data line read as the parser reads it: trimmed, split with the pattern, the empty pieces dropped, and pieces 0, 1 and 2 taken, each `None` when missing. What it gives for Horizons lines is stated by `PositionLineFields` and the two velocity-line lemmas |
| HorizonsParser.LabelledLineSplit | src/routes/api/planets/positions/+server.ts:82-95 | a line of three labelled numbers splits into the text before the first label and one piece per number |
| HorizonsParser.PositionLineSplit | src/routes/api/planets/positions/+server.ts:82-85 | `X =x Y =y Z =z`, each value perhaps with a blank in place of its sign, splits on `[XYZ]\s*=\s*` into an empty piece, then x, y and z; the blank goes with the label |
| HorizonsParser.PositionLineFields | src/routes/api/planets/positions/+server.ts:82-101 | the position line, indented and with each value perhaps preceded by a blank in place of its sign, reads as x, y and z |
| HorizonsParser.IntendedVelocityLineSplit | src/routes/api/planets/positions/+server.ts:92-95 | with `V[XYZ]\s*=\s*`, `VX=x VY=y VZ=z`, each value perhaps with a blank in place of its sign, splits into an empty piece, then x, y and z |
| HorizonsParser.IntendedVelocityLineFields | src/routes/api/planets/positions/+server.ts:92-106 | with the intended pattern the velocity line, indented and with blanks in place of signs, reads as vx, vy and vz |
| HorizonsParser.VIsNoLabel | src/routes/api/planets/positions/+server.ts:94 | under the class `[VX\|VY\|VZ]` no match starts at the `V` of a velocity label |
| HorizonsParser.AsWrittenVelocityLineSplit | src/routes/api/planets/positions/+server.ts:92-95 | as written, the velocity line, blanks in place of signs included, splits into `V`, `x V`, `y V` and `z` |
| HorizonsParser.AsWrittenVelocityLineFields | src/routes/api/planets/positions/+server.ts:92-106 | as written, the velocity line, indented and with blanks in place of signs, reads as `V`, `x V` and `y V`, so vz is lost |
| HorizonsParser.ParseOfResponse | src/routes/api/planets/positions/+server.ts:70-109 | a response with header lines, the `$$SOE` line, a date line, two data lines and then any trailer lines, one of which holds `$$EOE`, parses the two data lines with the given patterns |
| HorizonsParser.ParsesWellFormedResponse | src/routes/api/planets/positions/+server.ts:70-109 | a Horizons vector answer parses into the six numbers of its first record, in order. The data lines may be indented and each value may have a blank in place of its sign. Further records and the `$$EOE` line may follow in any order |
| HorizonsParser.AsWrittenMisreadsVelocity | src/routes/api/planets/positions/+server.ts:91-106 | for the same layout, the parser as written reads the position right and the velocity as `V`, vx and vy |
| HorizonsParser.AsWrittenMisreadsEarth | src/routes/api/planets/positions/+server.ts:91-106 | a concrete Earth answer, laid out as Horizons prints it, whose velocity is misread by the parser as written |
| HorizonsParser.EndMarkerPositionUnchecked | src/routes/api/planets/positions/+server.ts:72-80 | a `$$EOE` right after `$$SOE` does not stop the parser reading the two lines after it |
| PositionsEndpoint.PlanetIdsCoverPlanets | src/routes/api/planets/positions/+server.ts:8-17 | exactly the eight planets have a Horizons code, and no two share one |
| PositionsEndpoint.QueriesAreDistinct | src/routes/api/planets/positions/+server.ts:139-148 | different planets are asked for with different queries |
| PositionsEndpoint.PlanetStep | src/routes/api/planets/positions/+server.ts:139-161 | one turn of the planet loop: pause when an entry precedes it, fetch with retry, parse. It records the requests and waits and gives the entry or an error naming the planet; stated by `PlanetStepOutcome` |
| PositionsEndpoint.BatchFrom | src/routes/api/planets/positions/+server.ts:138-162 | the planet loop over the remaining planets: the first turn that fails ends it, otherwise its entry is appended. Stated by the `BatchFrom…` lemmas |
| PositionsEndpoint.AllPlanets | src/routes/api/planets/positions/+server.ts:127-162 | the loop over `PLANETS` for the computed date pair; an invalid date fails at the first query. Stated by `AllPlanetsInvalidDate` and `AllPlanetsOutcome` |
| PositionsEndpoint.BackoffIsPower | src/routes/api/planets/positions/+server.ts:48-50 | the delay before attempt `n + 1` is `initialDelay * 2^n` |
| PositionsEndpoint.FetchWithRetry | src/routes/api/planets/positions/+server.ts:34-68 | the retry loop makes the same requests, waits the same delays and returns or throws the same result as the recursive retry schedule |
| PositionsEndpoint.Retry | src/routes/api/planets/positions/+server.ts:34-68 | `fetchWithRetry` as a recursive schedule from attempt 0 with no error yet. Its requests, waits and outcome are stated by `RetrySchedule` |
| PositionsEndpoint.RetryFrom | src/routes/api/planets/positions/+server.ts:41-67 | the loop from attempt `i` on: request attempt `i`, waiting first when `i > 0`; stop with the body on success, else go on with that attempt's error; give up with the last error after `maxRetries`. Stated by the `RetryFrom…` lemmas |
| PositionsEndpoint.RetryFromSucceedsIff | src/routes/api/planets/positions/+server.ts:41-64 | from any attempt on, the text is returned exactly when some remaining attempt succeeds |
| PositionsEndpoint.RetryFromFirstSuccess | src/routes/api/planets/positions/+server.ts:41-60 | the first successful attempt's body is returned, after one request per attempt up to it and one delay per earlier attempt but attempt 0 |
| PositionsEndpoint.RetryFromFailure | src/routes/api/planets/positions/+server.ts:41-67 | when every remaining attempt fails, the last one's error (non-ok status or rejection) is thrown, after one request per remaining attempt and one delay per delayed attempt |
| PositionsEndpoint.RetryFromDelays | src/routes/api/planets/positions/+server.ts:48-50 | from any attempt on, the recorded delays double one after the other |
| PositionsEndpoint.RetryFromRequests | src/routes/api/planets/positions/+server.ts:41-52 | from attempt `i` on, the `k`-th request is attempt `i + k` of the same query, and no request goes beyond attempt `maxRetries - 1` |
| PositionsEndpoint.RetrySchedule | src/routes/api/planets/positions/+server.ts:34-68 | success exactly when some attempt succeeds: then the first success's body, after `j + 1` requests and `j` waits when attempt `j` is that success. Otherwise, the last attempt's error after exactly `maxRetries` requests and `maxRetries - 1` waits, or the fallback error with no request when `maxRetries` is 0. Never more than `maxRetries` requests: request `k` is attempt `k` of the same query, and the `k`-th wait is `initialDelay * 2^k` |
| PositionsEndpoint.DefaultRetryGivesUp | src/routes/api/planets/positions/+server.ts:36-67 | with the defaults, a request that always fails is sent three times (attempts 0, 1 and 2), waits 1000 ms and then 2000 ms, and throws the third attempt's error |
| PositionsEndpoint.FetchPlanet | src/routes/api/planets/positions/+server.ts:139-161 | one turn of the planet loop pauses when an entry precedes it, fetches with retry and parses; its requests, waits and result are those of the turn's specification |
| PositionsEndpoint.FetchNext | src/routes/api/planets/positions/+server.ts:138-161 | a turn either ends the loop over the remaining planets with its error or adds its entry and leaves the loop over the rest |
| PositionsEndpoint.FetchPlanets | src/routes/api/planets/positions/+server.ts:137-162 | the planet loop makes the same requests and waits, and returns or fails, exactly as the recursive loop specification does |
| PositionsEndpoint.PlanetStepOutcome | src/routes/api/planets/positions/+server.ts:151-161 | a turn gives its planet's entry exactly when the planet is fetched and parsed, and otherwise an error naming the planet |
| PositionsEndpoint.BatchFromSucceedsIff | src/routes/api/planets/positions/+server.ts:138-162 | the loop succeeds exactly when every planet is fetched and parsed |
| PositionsEndpoint.BatchFromEntries | src/routes/api/planets/positions/+server.ts:155-161 | a successful loop appends one entry per planet, in order, each read from that planet's answer |
| PositionsEndpoint.BatchFromFirstFailure | src/routes/api/planets/positions/+server.ts:138-162 | a failed loop names the first planet that could not be fetched or parsed |
| PositionsEndpoint.AllPlanetsInvalidDate | src/routes/api/planets/positions/+server.ts:127-148 | an invalid date fails the loop at the first query, before any request or pause |
| PositionsEndpoint.AllPlanetsOutcome | src/routes/api/planets/positions/+server.ts:136-162 | for a valid date the batch is all-or-nothing. Success lists the eight planets in catalog order, each with exactly one record read from its answer; failure names a planet that failed |
| PositionsEndpoint.PacingFrom | src/routes/api/planets/positions/+server.ts:151-155 | when every planet answers at once, the loop sends one request per planet (attempt 0 of its query, in order) and pauses 1000 ms before every planet that follows an entry and nowhere else |
| PositionsEndpoint.AllPlanetsPacing | src/routes/api/planets/positions/+server.ts:138-162 | with all eight planets answering at once, GET sends eight requests, one per planet in catalog order, and waits exactly seven times 1000 ms |
| PositionsEndpoint.BatchFromRequestBound | src/routes/api/planets/positions/+server.ts:138-162 | the loop sends at most three requests per planet, each an attempt below three of the query for one of the planets |
| PositionsEndpoint.IsFresh | src/routes/api/planets/positions/+server.ts:121-123 | a cache entry is served while it is strictly younger than one hour |
| PositionsEndpoint.PositionsEndpoint.constructor | src/routes/api/planets/positions/+server.ts:112 | the cache starts empty |
| PositionsEndpoint.PositionsEndpoint.Get | src/routes/api/planets/positions/+server.ts:115-171 | a missing or empty date gives 400 with no request, no wait and no cache change. A fresh entry is served with no request and no wait. Otherwise the planet loop runs with the given parser and its requests and waits are GET's: success gives 200 with the entries and stores them with their time; failure gives 500 and leaves the cache as it was |
| PositionsEndpoint.RepeatedRequest | src/routes/api/planets/positions/+server.ts:121-165 | a second request for a date within the hour after a successful one gets the same answer from the cache, with no request to Horizons and no wait |
| PlanetCalculator.DistanceIsReal | src/lib/utils/planet-calculator.ts:45-47 | the number whose square root is the distance from the Sun is never negative |
| PlanetCalculator.CalculatePlanetPositions | src/lib/utils/planet-calculator.ts:26-50 | one record per `PLANETS` entry, in order |
| PlanetCalculator.PlanetPositionsTable | src/lib/utils/planet-calculator.ts:29-47 | each record is named after its entry, holds the ephemeris position and that position times `AU_TO_KM` per component, and has a real distance and no orbit |
| PlanetCalculator.OrbitalPeriod | src/lib/utils/planet-calculator.ts:68-79 | the period is positive: the tabulated one for a name of the table, 365.26 days for a name that is neither in the table nor inherited from `Object.prototype` |
| PlanetCalculator.CatalogNamesGetDefaultPeriod | src/lib/utils/planet-calculator.ts:68-79 | the lower-case catalog names all fall back to 365.26 days |
| PlanetCalculator.SampleOffsetsSpanOnePeriod | src/lib/utils/planet-calculator.ts:82-83 | sample offsets start at 0, increase strictly and stay below one period |
| PlanetCalculator.OrbitPoints | src/lib/utils/planet-calculator.ts:59-99 | the points `generateOrbitPoints` returns: `points` samples over one period, then the first one again. Stated by `OrbitPointsShape` and implemented by the loop `GenerateOrbitPoints` |
| PlanetCalculator.OrbitPointsShape | src/lib/utils/planet-calculator.ts:59-99 | `points + 1` points when `points` is positive, none otherwise. The last point repeats the first, and point `i` is the ephemeris at the `i`-th fraction of a period |
| PlanetCalculator.GenerateOrbitPoints | src/lib/utils/planet-calculator.ts:59-99 | the sampling loop and the closing point produce the orbit of the specification |
| PlanetCalculator.CalculateSolarSystem | src/lib/utils/planet-calculator.ts:107-115 | one record per planet |
| PlanetCalculator.SolarSystemTable | src/lib/utils/planet-calculator.ts:107-115 | each record is the position-table record with its orbit added, sampled over the fallback period |
| PlanetCalculator.DefaultOrbitsHave201Points | src/lib/utils/planet-calculator.ts:107-114 | with the default 200, every planet gets a closed orbit of 201 points |
| SolarSystem.ScaledPoints | src/lib/three/solar-system.ts:103-105 | every orbit vertex is the calculated point times `SCALE`, in order |
| SolarSystem.OrbitLines | src/lib/three/solar-system.ts:101-109 | the vertex lists of the orbit lines `updatePlanets` creates, one per record with orbit points, in order. Stated by `OrbitLinePerRecord` |
| SolarSystem.OrbitLinePerRecord | src/lib/three/solar-system.ts:101-109 | when every record has orbit points, there is one orbit line per record, in order |
| SolarSystem.CalculatedPlanetsHaveDetails | src/lib/three/solar-system.ts:81-88 | every calculated planet has a `PLANET_DETAILS` entry to colour its mesh, and carries its orbit |
| SolarSystem.SolarSystem.constructor | src/lib/three/solar-system.ts:39-48 | the scene holds exactly an ambient light, a directional light and the sun, and no planet or orbit is tracked |
| SolarSystem.SolarSystem.ClearTracked | src/lib/three/solar-system.ts:75-78 | every tracked mesh and line leaves the scene and both lists are emptied; the constructor's objects stay |
| SolarSystem.SolarSystem.AddPlanet | src/lib/three/solar-system.ts:84-109 | a new mesh, coloured from the catalog and placed at `SCALE` times the position, joins the scene and `planets`. A new line through the scaled orbit joins the scene and `orbits` when the record has an orbit. The earlier meshes and lines are kept |
| SolarSystem.SolarSystem.AddPlanets | src/lib/three/solar-system.ts:83-110 | one new mesh per record and one new line per record with an orbit, in order, all in the scene |
| SolarSystem.SolarSystem.UpdatePlanets | src/lib/three/solar-system.ts:73-111 | afterwards the scene is exactly the constructor's objects plus one new mesh per calculated planet and one new line per orbit, placed and coloured as the calculation and the catalog say |
| SolarSystem.DefaultSceneShape | src/lib/three/solar-system.ts:80-109 | after an update every planet has one mesh and one orbit line of 201 scaled vertices, in catalog order |
| SolarSystem.UpdateTwice | src/lib/three/solar-system.ts:73-111 | after two updates the scene is the constructor's objects plus eight new meshes and eight new lines. None of the eight meshes and eight lines the first update added is left in the scene |

## Left out

- `parseFloat`, the division by the AU in `parseHorizonsData`, and floating point in general. Numbers stay as text in the parser and as reals in the calculator.
- PlanetCalculator.DistanceIsReal: `Math.sqrt` is kept symbolic, so the model states only that its argument is never negative. It does not state that the distance is zero only at the Sun.
- The JavaScript `Date` computations (`new Date`, `setDate(getDate() - 1)` in local time, `toISOString`). They are timezone-dependent and are the `Calendar` parameter.
- `Astronomy.AstroTime`, `AddDays` and `HelioVector` are a foreign library. Times are reals in days and `HelioVector` is the `Ephemeris` parameter, so what that library does with the lower-case planet names is not modelled.
- The query string, the URL and the `console.log`/`console.error` calls. A request is the `HorizonsParams` record itself.
- `delay`/`setTimeout` and `async`/`await`. Everything runs in sequence, and waits are recorded rather than slept.
- PlanetCalculator.OrbitalPeriod: the lookup is modelled on the table's own keys. In JavaScript `orbitalPeriods[name]` also finds the members every object inherits from `Object.prototype` (`constructor`, `toString`, `__proto__` and the like), whose value is a function or an object, so every sample time would be NaN. Only `Body` values and the lower-case catalog names reach this lookup, and none of them names such a member.
- The JSON serialisation of the response and the `RequestHandler` plumbing. A response is a status and a body value.
- The near-earth-objects routes, the NASA endpoint helpers and the type declarations in `src/lib/types/nasa.ts` are not part of this model.
- Rendering in `solar-system.ts`: the camera, renderer, controls, `handleResize`, `animate`, `dispose`, geometries and materials. A mesh keeps only its colour and position, and `createOrbitLine` is a line holding its vertices.
- SolarSystem.SolarSystem.constructor: the sun's colour is a parameter. `PLANET_DETAILS.Sun` names a key the catalog does not have, so the source would throw there.
- The order of the scene's children is not modelled. The scene is the set of objects it holds.

## Findings

| source | as written | input that shows it | evidently intended | confidence | as-written member | corrected member |
|---|---|---|---|---|---|---|
| src/routes/api/planets/positions/+server.ts:94 | `/[VX\|VY\|VZ]\s*=\s*/` is one character from {V, X, \|, Y, Z} followed by `=`. It cuts `VX=a VY=b VZ=c` after each `V`, so the velocity reads as `V` (NaN), `a V` and `b V`. | the velocity line `VX=-29.8 VY=-5.1 VZ=0.0` reads as `V`, `-29.8 V` and `-5.1 V` | cut at the labels `VX=`, `VY=` and `VZ=` (`/V[XYZ]\s*=\s*/`), giving vx, vy and vz | not executed | HorizonsParser.AsWrittenMisreadsVelocity | HorizonsParser.ParsesWellFormedResponse |
