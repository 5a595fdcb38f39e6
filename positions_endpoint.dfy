/** The planet-positions endpoint (src/routes/api/planets/positions/+server.ts): for a date it
    asks JPL Horizons for one state vector per planet, one planet after the other, retrying
    each request with exponential backoff, and keeps every complete answer in an in-memory
    cache for an hour.

    The network is a parameter: `Upstream` gives the outcome of attempt `i` of a request.
    Delays are not waited for but recorded, in order, as the list of their lengths in
    milliseconds. The JavaScript `Date` computations are a parameter too (`Calendar`). */
module PositionsEndpoint {
  import opened Outcomes
  import Planets
  import opened HorizonsParser

  /** `PLANET_IDS`: the Horizons body code of each planet's barycentre. */
  const PLANET_IDS: map<string, string> := map[
    "mercury" := "199", "venus" := "299", "earth" := "399", "mars" := "499",
    "jupiter" := "599", "saturn" := "699", "uranus" := "799", "neptune" := "899"
  ]

  /** Every planet of the catalog has a Horizons code, no other name has one, and no two
      planets share one. */
  lemma PlanetIdsCoverPlanets()
    ensures forall p :: p in Planets.PLANETS <==> p in PLANET_IDS
    ensures forall p, q :: p in PLANET_IDS && q in PLANET_IDS && p != q ==> PLANET_IDS[p] != PLANET_IDS[q]
  {
    assert PLANET_IDS.Keys == set p | p in Planets.PLANETS;
    PlanetIdsAreDistinct();
  }

  /** No two planets share a Horizons code. */
  lemma PlanetIdsAreDistinct()
    ensures forall p, q :: p in PLANET_IDS && q in PLANET_IDS && p != q ==> PLANET_IDS[p] != PLANET_IDS[q]
  {
  }

  // ---------------------------------------------------------------------------
  // fetchWithRetry
  // ---------------------------------------------------------------------------

  /** `HorizonsParams`: the query string of one Horizons request. */
  datatype HorizonsParams = HorizonsParams(
    format: string, command: string, ephemType: string, center: string,
    startTime: string, stopTime: string, stepSize: string, quantities: string)

  /** What one `fetch` gives: a response (with its `ok` flag, status text and body), or a
      rejected promise. */
  datatype FetchOutcome =
    | Replied(ok: bool, statusText: string, body: string)
    | NetworkFailure(message: string)

  /** The error `fetchWithRetry` throws: the last attempt's, or the fallback error when no
      attempt was made. */
  datatype FetchError =
    | HttpStatus(statusText: string)
    | Network(message: string)
    | NoAttempt

  /** The outcome of attempt `i` of the request `params`. */
  type Upstream = (HorizonsParams, nat) -> FetchOutcome

  const MAX_RETRIES: nat := 3
  const INITIAL_DELAY: nat := 1000

  predicate Succeeds(o: FetchOutcome) {
    o.Replied? && o.ok
  }

  /** The error thrown for a failed attempt. */
  function AttemptError(o: FetchOutcome): FetchError
    requires !Succeeds(o)
  {
    if o.Replied? then HttpStatus(o.statusText) else Network(o.message)
  }

  function Pow2(n: nat): (r: nat)
    ensures r >= 1
  {
    if n == 0 then 1 else 2 * Pow2(n - 1)
  }

  /** The delay before attempt `n + 1`: the initial delay, doubled `n` times. */
  function Backoff(initialDelay: nat, n: nat): nat {
    if n == 0 then initialDelay else 2 * Backoff(initialDelay, n - 1)
  }

  /** The delay before attempt `n + 1` is `initialDelay * 2^n`, as the source computes it. */
  lemma {:induction false} BackoffIsPower(initialDelay: nat, n: nat)
    ensures Backoff(initialDelay, n) == initialDelay * Pow2(n)
  {
    if n > 0 {
      BackoffIsPower(initialDelay, n - 1);
      calc {
        Backoff(initialDelay, n);
        2 * (initialDelay * Pow2(n - 1));
        { assert 2 * (initialDelay * Pow2(n - 1)) == initialDelay * (2 * Pow2(n - 1)); }
        initialDelay * Pow2(n);
      }
    }
  }

  /** One `fetch` made: the request `params`, as attempt number `attempt`. */
  datatype Request = Request(params: HorizonsParams, attempt: nat)

  /** The requests made and the delays waited, each in order, and the text returned or the
      error thrown. */
  datatype Attempts = Attempts(requests: seq<Request>, waits: seq<nat>, outcome: Result<string, FetchError>)

  /** Attempts `i` to `maxRetries - 1`, `lastError` being the error of attempt `i - 1`. */
  function RetryFrom(upstream: Upstream, params: HorizonsParams, maxRetries: nat, initialDelay: nat,
                     i: nat, lastError: FetchError): Attempts
    decreases maxRetries - i
  {
    if i >= maxRetries then Attempts([], [], Err(lastError))
    else
      var pause := if i > 0 then [Backoff(initialDelay, i - 1)] else [];
      var o := upstream(params, i);
      if Succeeds(o) then Attempts([Request(params, i)], pause, Ok(o.body))
      else
        var rest := RetryFrom(upstream, params, maxRetries, initialDelay, i + 1, AttemptError(o));
        Attempts([Request(params, i)] + rest.requests, pause + rest.waits, rest.outcome)
  }

  /** What `fetchWithRetry(params, maxRetries, initialDelay)` does. */
  function Retry(upstream: Upstream, params: HorizonsParams, maxRetries: nat, initialDelay: nat): Attempts {
    RetryFrom(upstream, params, maxRetries, initialDelay, 0, NoAttempt)
  }

  /** `fetchWithRetry`: up to `maxRetries` attempts, waiting `initialDelay * 2^(i-1)` before
      attempt `i > 0`; the first response with `ok` set gives the text, and when every attempt
      fails the last attempt's error is thrown. */
  method FetchWithRetry(upstream: Upstream, params: HorizonsParams, maxRetries: nat, initialDelay: nat)
    returns (requests: seq<Request>, waits: seq<nat>, result: Result<string, FetchError>)
    ensures Attempts(requests, waits, result) == Retry(upstream, params, maxRetries, initialDelay)
  {
    var lastError := NoAttempt;
    requests := [];
    waits := [];
    var i := 0;
    while i < maxRetries
      invariant i <= maxRetries
      invariant var rest := RetryFrom(upstream, params, maxRetries, initialDelay, i, lastError);
        Retry(upstream, params, maxRetries, initialDelay)
          == Attempts(requests + rest.requests, waits + rest.waits, rest.outcome)
    {
      ghost var requestsBefore, waitsBefore, errorBefore := requests, waits, lastError;
      var pause: seq<nat> := [];
      if i > 0 {
        pause := [Backoff(initialDelay, i - 1)];
        waits := waits + pause;
      } else {
        assert waits + pause == waits;
      }
      requests := requests + [Request(params, i)];
      var response := upstream(params, i);
      if response.Replied? && response.ok {
        return requests, waits, Ok(response.body);
      }
      lastError := AttemptError(response);
      RetryFromStep(upstream, params, maxRetries, initialDelay, i, errorBefore);
      AttemptsStep(Retry(upstream, params, maxRetries, initialDelay), requestsBefore, waitsBefore,
                   RetryFrom(upstream, params, maxRetries, initialDelay, i, errorBefore), Request(params, i), pause,
                   RetryFrom(upstream, params, maxRetries, initialDelay, i + 1, lastError));
      i := i + 1;
    }
    return requests, waits, Err(lastError);
  }

  /** The bookkeeping of one failed attempt: its request and pause move from the rest of the
      schedule to what has been done. */
  lemma AttemptsStep(whole: Attempts, requests: seq<Request>, waits: seq<nat>, rest: Attempts, r: Request,
                     pause: seq<nat>, next: Attempts)
    requires whole == Attempts(requests + rest.requests, waits + rest.waits, rest.outcome)
    requires rest == Attempts([r] + next.requests, pause + next.waits, next.outcome)
    ensures whole == Attempts((requests + [r]) + next.requests, (waits + pause) + next.waits, next.outcome)
  {
    assert requests + ([r] + next.requests) == (requests + [r]) + next.requests;
    assert waits + (pause + next.waits) == (waits + pause) + next.waits;
  }

  /** `j` is the first attempt from `i` on that succeeds. */
  ghost predicate FirstSuccess(upstream: Upstream, params: HorizonsParams, i: nat, j: nat) {
    i <= j && Succeeds(upstream(params, j)) && forall k :: i <= k < j ==> !Succeeds(upstream(params, k))
  }

  /** How many of the attempts `i` to `j - 1` are preceded by a delay: all but attempt 0. */
  function DelayedAttempts(i: nat, j: nat): nat {
    if j <= i then 0 else if i == 0 then j - 1 else j - i
  }

  /** How many delays precede attempt `i`: the exponent of the first delay from attempt `i` on. */
  function DelaysBefore(i: nat): nat {
    if i == 0 then 0 else i - 1
  }

  /** From attempt `i` on, the text is returned exactly when some remaining attempt succeeds. */
  lemma {:induction false} RetryFromSucceedsIff(upstream: Upstream, params: HorizonsParams, maxRetries: nat,
                                                initialDelay: nat, i: nat, lastError: FetchError)
    ensures RetryFrom(upstream, params, maxRetries, initialDelay, i, lastError).outcome.Ok?
        <==> exists j :: i <= j < maxRetries && Succeeds(upstream(params, j))
    decreases maxRetries - i
  {
    if i < maxRetries {
      if Succeeds(upstream(params, i)) {
        assert i <= i < maxRetries && Succeeds(upstream(params, i));
      } else {
        RetryFromSucceedsIff(upstream, params, maxRetries, initialDelay, i + 1, AttemptError(upstream(params, i)));
        assert forall j :: i <= j < maxRetries && Succeeds(upstream(params, j)) ==> i + 1 <= j;
      }
    }
  }

  /** From attempt `i` on, the first success `j` gives its text, after one delay for each
      attempt from `i` to `j` but attempt 0. */
  lemma {:induction false} RetryFromFirstSuccess(upstream: Upstream, params: HorizonsParams, maxRetries: nat,
                                                 initialDelay: nat, i: nat, lastError: FetchError, j: nat)
    requires FirstSuccess(upstream, params, i, j) && j < maxRetries
    ensures var a := RetryFrom(upstream, params, maxRetries, initialDelay, i, lastError);
      && a.outcome == Ok(upstream(params, j).body)
      && |a.requests| == j + 1 - i
      && |a.waits| == DelayedAttempts(i, j + 1)
    decreases j - i
  {
    if i < j {
      assert !Succeeds(upstream(params, i));
      RetryFromFirstSuccess(upstream, params, maxRetries, initialDelay, i + 1, AttemptError(upstream(params, i)), j);
    }
  }

  /** From attempt `i` on, when every remaining attempt fails, the error of the last one is
      thrown (or `lastError` when none remains), after one delay per delayed attempt. */
  lemma {:induction false} RetryFromFailure(upstream: Upstream, params: HorizonsParams, maxRetries: nat,
                                            initialDelay: nat, i: nat, lastError: FetchError)
    requires i <= maxRetries
    requires forall j :: i <= j < maxRetries ==> !Succeeds(upstream(params, j))
    ensures var a := RetryFrom(upstream, params, maxRetries, initialDelay, i, lastError);
      && a.outcome == Err(if i == maxRetries then lastError else AttemptError(upstream(params, maxRetries - 1)))
      && |a.requests| == maxRetries - i
      && |a.waits| == DelayedAttempts(i, maxRetries)
    decreases maxRetries - i
  {
    if i < maxRetries {
      assert !Succeeds(upstream(params, i));
      RetryFromFailure(upstream, params, maxRetries, initialDelay, i + 1, AttemptError(upstream(params, i)));
    }
  }

  /** From attempt `i` on, the delays double each time, starting from the one before attempt
      `i` (or before attempt 1 when `i` is 0). */
  lemma {:induction false} RetryFromDelays(upstream: Upstream, params: HorizonsParams, maxRetries: nat,
                                           initialDelay: nat, i: nat, lastError: FetchError)
    ensures forall k :: 0 <= k < |RetryFrom(upstream, params, maxRetries, initialDelay, i, lastError).waits| ==>
      RetryFrom(upstream, params, maxRetries, initialDelay, i, lastError).waits[k] == Backoff(initialDelay, DelaysBefore(i) + k)
    decreases maxRetries - i
  {
    if i < maxRetries && !Succeeds(upstream(params, i)) {
      var rest := RetryFrom(upstream, params, maxRetries, initialDelay, i + 1, AttemptError(upstream(params, i))).waits;
      RetryFromDelays(upstream, params, maxRetries, initialDelay, i + 1, AttemptError(upstream(params, i)));
      RetryFromStep(upstream, params, maxRetries, initialDelay, i, lastError);
      if i > 0 {
        DoublingPrepended(initialDelay, DelaysBefore(i), DelaysBefore(i + 1), rest);
      } else {
        assert DelaysBefore(i + 1) == DelaysBefore(i);
      }
    }
  }

  /** A failed attempt `i` adds its delay, if any, in front of the delays of the attempts after it. */
  lemma RetryFromStep(upstream: Upstream, params: HorizonsParams, maxRetries: nat, initialDelay: nat,
                      i: nat, lastError: FetchError)
    requires i < maxRetries && !Succeeds(upstream(params, i))
    ensures var rest := RetryFrom(upstream, params, maxRetries, initialDelay, i + 1, AttemptError(upstream(params, i)));
      RetryFrom(upstream, params, maxRetries, initialDelay, i, lastError)
        == Attempts([Request(params, i)] + rest.requests,
                    (if i > 0 then [Backoff(initialDelay, DelaysBefore(i))] else []) + rest.waits, rest.outcome)
  {
  }

  /** From attempt `i` on, the `k`-th request made is attempt `i + k` with the same parameters,
      and no attempt at or beyond `maxRetries` is made. */
  lemma {:induction false} RetryFromRequests(upstream: Upstream, params: HorizonsParams, maxRetries: nat,
                                             initialDelay: nat, i: nat, lastError: FetchError)
    ensures var r := RetryFrom(upstream, params, maxRetries, initialDelay, i, lastError).requests;
      && (r == [] || i + |r| <= maxRetries)
      && forall k :: 0 <= k < |r| ==> r[k] == Request(params, i + k)
    decreases maxRetries - i
  {
    if i < maxRetries && !Succeeds(upstream(params, i)) {
      var rest := RetryFrom(upstream, params, maxRetries, initialDelay, i + 1, AttemptError(upstream(params, i))).requests;
      RetryFromRequests(upstream, params, maxRetries, initialDelay, i + 1, AttemptError(upstream(params, i)));
      RetryFromStep(upstream, params, maxRetries, initialDelay, i, lastError);
      var r := [Request(params, i)] + rest;
      forall k | 0 < k < |r| ensures r[k] == Request(params, i + k) {
        assert r[k] == rest[k - 1];
      }
    }
  }

  /** Prepending the delay before a run of doubling delays keeps it a run. */
  lemma DoublingPrepended(initialDelay: nat, n: nat, m: nat, rest: seq<nat>)
    requires m == n + 1
    requires forall k :: 0 <= k < |rest| ==> rest[k] == Backoff(initialDelay, m + k)
    ensures forall k :: 0 <= k < |[Backoff(initialDelay, n)] + rest| ==>
      ([Backoff(initialDelay, n)] + rest)[k] == Backoff(initialDelay, n + k)
  {
    var w := [Backoff(initialDelay, n)] + rest;
    forall k | 0 < k < |w| ensures w[k] == Backoff(initialDelay, n + k) {
      assert w[k] == rest[k - 1];
      assert m + (k - 1) == n + k;
    }
  }

  /** The schedule of `fetchWithRetry`: it succeeds exactly when some attempt does, with the
      text of the first success `j` after `j + 1` requests and `j` delays; otherwise it makes
      exactly `maxRetries` requests, waits before every one but the first and throws the last
      attempt's error (the fallback error, with no request at all, when `maxRetries` is 0).
      The `k`-th request is attempt `k` with the same parameters, never more than
      `maxRetries` are made, and the `k`-th delay is `initialDelay * 2^k`. */
  lemma RetrySchedule(upstream: Upstream, params: HorizonsParams, maxRetries: nat, initialDelay: nat)
    ensures var a := Retry(upstream, params, maxRetries, initialDelay);
      && (a.outcome.Ok? <==> exists j :: 0 <= j < maxRetries && Succeeds(upstream(params, j)))
      && (forall j: nat :: FirstSuccess(upstream, params, 0, j) && j < maxRetries ==>
            a.outcome == Ok(upstream(params, j).body) && |a.requests| == j + 1 && |a.waits| == j)
      && (a.outcome.Err? && maxRetries == 0 ==> a.requests == [] && a.waits == [] && a.outcome.error == NoAttempt)
      && (a.outcome.Err? && maxRetries > 0 ==>
            && |a.requests| == maxRetries
            && |a.waits| == maxRetries - 1
            && a.outcome.error == AttemptError(upstream(params, maxRetries - 1)))
      && |a.requests| <= maxRetries
      && (forall k :: 0 <= k < |a.requests| ==> a.requests[k] == Request(params, k))
      && (forall k :: 0 <= k < |a.waits| ==> a.waits[k] == initialDelay * Pow2(k))
  {
    var a := Retry(upstream, params, maxRetries, initialDelay);
    RetryFromSucceedsIff(upstream, params, maxRetries, initialDelay, 0, NoAttempt);
    RetryFromRequests(upstream, params, maxRetries, initialDelay, 0, NoAttempt);
    forall j: nat | FirstSuccess(upstream, params, 0, j) && j < maxRetries
      ensures a.outcome == Ok(upstream(params, j).body) && |a.requests| == j + 1 && |a.waits| == j
    {
      RetryFromFirstSuccess(upstream, params, maxRetries, initialDelay, 0, NoAttempt, j);
    }
    if a.outcome.Err? {
      RetryFromFailure(upstream, params, maxRetries, initialDelay, 0, NoAttempt);
    }
    forall k | 0 <= k < |a.waits| ensures a.waits[k] == initialDelay * Pow2(k) {
      RetryFromDelays(upstream, params, maxRetries, initialDelay, 0, NoAttempt);
      BackoffIsPower(initialDelay, k);
    }
  }

  /** With the defaults (3 attempts, 1000 ms), a request that always fails is sent three
      times, waits 1 s, then 2 s, and throws the third attempt's error. */
  lemma DefaultRetryGivesUp(upstream: Upstream, params: HorizonsParams)
    requires forall i :: !Succeeds(upstream(params, i))
    ensures Retry(upstream, params, MAX_RETRIES, INITIAL_DELAY)
         == Attempts([Request(params, 0), Request(params, 1), Request(params, 2)],
                     [1000, 2000], Err(AttemptError(upstream(params, 2))))
  {
    RetrySchedule(upstream, params, MAX_RETRIES, INITIAL_DELAY);
    var a := Retry(upstream, params, MAX_RETRIES, INITIAL_DELAY);
    assert Pow2(1) == 2;
    assert a.waits == [1000, 2000];
    assert a.requests == [Request(params, 0), Request(params, 1), Request(params, 2)];
  }

  // ---------------------------------------------------------------------------
  // The per-planet loop of GET
  // ---------------------------------------------------------------------------

  /** `formatDate(dayBefore)` and `formatDate(date)`: the requested day and the day before it,
      as `YYYY-MM-DD`. */
  datatype DateRange = DateRange(start: string, stop: string)

  /** `new Date(dateParam)` followed by the two `formatDate` calls: `None` when the date is
      invalid, so that `toISOString` throws. */
  type Calendar = string -> Option<DateRange>

  /** `PLANET_IDS[planet]` as it lands in the query string: `undefined` for a name without a code. */
  function PlanetCommand(planet: string): string {
    if planet in PLANET_IDS then PLANET_IDS[planet] else "undefined"
  }

  /** The query for one planet. */
  function Query(planet: string, range: DateRange): HorizonsParams {
    HorizonsParams("text", PlanetCommand(planet), "VECTORS", "500@10", range.start, range.stop, "1d", "2")
  }

  /** Different planets of the catalog are asked for with different queries. */
  lemma QueriesAreDistinct(p: string, q: string, range: DateRange)
    requires p in Planets.PLANETS && q in Planets.PLANETS && p != q
    ensures Query(p, range) != Query(q, range)
  {
    PlanetIdsCoverPlanets();
  }

  const PLANET_PAUSE: nat := 1000

  /** One element of the response: a planet and its one-entry `orbitalData`. */
  datatype PlanetEntry = PlanetEntry(planet: string, orbitalData: seq<Ephemeris>)

  /** Why the loop stopped: the date, the request or the parse of a given planet. */
  datatype BatchError =
    | InvalidDate
    | FetchFailed(planet: string, cause: FetchError)
    | ParseFailed(planet: string, reason: ParseError)

  /** The parser applied to each response text; GET uses `ParseHorizonsData`. */
  type Parser = string -> Result<Ephemeris, ParseError>

  /** The requests made and the delays waited, each in order, and the entries or the error
      that ended the loop. */
  datatype Batch = Batch(requests: seq<Request>, waits: seq<nat>, result: Result<seq<PlanetEntry>, BatchError>)

  /** The requests made, the delays waited and the entry or error of one planet. */
  datatype Step = Step(requests: seq<Request>, waits: seq<nat>, result: Result<PlanetEntry, BatchError>)

  /** One turn of the loop for `planet`, after its query is built: pause a second when an
      entry precedes it, fetch with retry, parse. */
  function PlanetStep(upstream: Upstream, parse: Parser, range: DateRange, planet: string, follows: bool): Step {
    var pause := if follows then [PLANET_PAUSE] else [];
    var a := Retry(upstream, Query(planet, range), MAX_RETRIES, INITIAL_DELAY);
    if a.outcome.Err? then Step(a.requests, pause + a.waits, Err(FetchFailed(planet, a.outcome.error)))
    else
      var parsed := parse(a.outcome.value);
      if parsed.Err? then Step(a.requests, pause + a.waits, Err(ParseFailed(planet, parsed.error)))
      else Step(a.requests, pause + a.waits, Ok(PlanetEntry(planet, [parsed.value])))
  }

  /** The loop over `planets`, `done` holding the entries of the planets before them. */
  function BatchFrom(upstream: Upstream, parse: Parser, range: Option<DateRange>, planets: seq<string>,
                     done: seq<PlanetEntry>): Batch
    decreases |planets|
  {
    if planets == [] then Batch([], [], Ok(done))
    else if range.None? then Batch([], [], Err(InvalidDate))
    else
      var step := PlanetStep(upstream, parse, range.value, planets[0], |done| > 0);
      if step.result.Err? then Batch(step.requests, step.waits, Err(step.result.error))
      else
        var rest := BatchFrom(upstream, parse, range, planets[1..], done + [step.result.value]);
        Batch(step.requests + rest.requests, step.waits + rest.waits, rest.result)
  }

  /** The whole loop over `PLANETS`; GET runs it with `ParseHorizonsData`. */
  function AllPlanets(upstream: Upstream, parse: Parser, range: Option<DateRange>): Batch {
    BatchFrom(upstream, parse, range, Planets.PLANETS, [])
  }

  /** The body of the loop for one planet. */
  method FetchPlanet(upstream: Upstream, parse: Parser, range: DateRange, planet: string, follows: bool)
    returns (requests: seq<Request>, waits: seq<nat>, result: Result<PlanetEntry, BatchError>)
    ensures Step(requests, waits, result) == PlanetStep(upstream, parse, range, planet, follows)
  {
    var params := Query(planet, range);
    waits := [];
    if follows {
      waits := [PLANET_PAUSE];
    }
    var pauses, data;
    requests, pauses, data := FetchWithRetry(upstream, params, MAX_RETRIES, INITIAL_DELAY);
    waits := waits + pauses;
    if data.Err? {
      return requests, waits, Err(FetchFailed(planet, data.error));
    }
    var parsed := parse(data.value);
    if parsed.Err? {
      return requests, waits, Err(ParseFailed(planet, parsed.error));
    }
    result := Ok(PlanetEntry(planet, [parsed.value]));
  }

  /** One turn of the loop of GET, for `planets[i]` with `done` the entries so far: build the
      query (which fails on an invalid date), then fetch and parse. The turn either ends the
      loop over `planets[i..]` or adds an entry and leaves the loop over the rest. */
  method FetchNext(upstream: Upstream, parse: Parser, range: Option<DateRange>, planets: seq<string>, i: nat,
                   done: seq<PlanetEntry>)
    returns (requests: seq<Request>, waits: seq<nat>, result: Result<PlanetEntry, BatchError>)
    requires i < |planets|
    ensures result.Err? ==>
      BatchFrom(upstream, parse, range, planets[i..], done) == Batch(requests, waits, Err(result.error))
    ensures result.Ok? ==>
      var rest := BatchFrom(upstream, parse, range, planets[i + 1..], done + [result.value]);
      BatchFrom(upstream, parse, range, planets[i..], done)
        == Batch(requests + rest.requests, waits + rest.waits, rest.result)
  {
    if range.None? {
      return [], [], Err(InvalidDate);
    }
    requests, waits, result := FetchPlanet(upstream, parse, range.value, planets[i], |done| > 0);
    BatchFromStep(upstream, parse, range.value, planets[i..], done);
    assert planets[i..][0] == planets[i] && planets[i..][1..] == planets[i + 1..];
  }

  /** The loop of GET over `planets`: each planet in turn, the first failure ending the loop. */
  method FetchPlanets(upstream: Upstream, parse: Parser, range: Option<DateRange>, planets: seq<string>)
    returns (requests: seq<Request>, waits: seq<nat>, result: Result<seq<PlanetEntry>, BatchError>)
    ensures Batch(requests, waits, result) == BatchFrom(upstream, parse, range, planets, [])
  {
    var planetData: seq<PlanetEntry> := [];
    requests, waits := [], [];
    var i := 0;
    while i < |planets|
      invariant i <= |planets|
      invariant var rest := BatchFrom(upstream, parse, range, planets[i..], planetData);
        BatchFrom(upstream, parse, range, planets, []) == Batch(requests + rest.requests, waits + rest.waits, rest.result)
    {
      var sent, pauses, entry := FetchNext(upstream, parse, range, planets, i, planetData);
      if entry.Err? {
        return requests + sent, waits + pauses, Err(entry.error);
      }
      BatchStep(BatchFrom(upstream, parse, range, planets, []), requests, waits,
                BatchFrom(upstream, parse, range, planets[i..], planetData), sent, pauses,
                BatchFrom(upstream, parse, range, planets[i + 1..], planetData + [entry.value]));
      requests, waits := requests + sent, waits + pauses;
      planetData := planetData + [entry.value];
      i := i + 1;
    }
    return requests, waits, Ok(planetData);
  }

  /** The bookkeeping of one successful turn: its requests and pauses move from the rest of
      the loop to what has been done. */
  lemma BatchStep(whole: Batch, requests: seq<Request>, waits: seq<nat>, rest: Batch, sent: seq<Request>,
                  pauses: seq<nat>, next: Batch)
    requires whole == Batch(requests + rest.requests, waits + rest.waits, rest.result)
    requires rest == Batch(sent + next.requests, pauses + next.waits, next.result)
    ensures whole == Batch((requests + sent) + next.requests, (waits + pauses) + next.waits, next.result)
  {
    assert requests + (sent + next.requests) == (requests + sent) + next.requests;
    assert waits + (pauses + next.waits) == (waits + pauses) + next.waits;
  }

  /** `planet` is fetched and parsed without error. */
  ghost predicate PlanetSucceeds(upstream: Upstream, parse: Parser, range: DateRange, planet: string) {
    var a := Retry(upstream, Query(planet, range), MAX_RETRIES, INITIAL_DELAY);
    a.outcome.Ok? && parse(a.outcome.value).Ok?
  }

  /** `e` is the entry of `planet`: its name and the state vector read from its response. */
  ghost predicate IsEntryOf(upstream: Upstream, parse: Parser, range: DateRange, planet: string, e: PlanetEntry) {
    var a := Retry(upstream, Query(planet, range), MAX_RETRIES, INITIAL_DELAY);
    a.outcome.Ok? && parse(a.outcome.value).Ok? && e == PlanetEntry(planet, [parse(a.outcome.value).value])
  }

  /** One turn of the loop either gives the entry of its planet or an error naming it. */
  lemma PlanetStepOutcome(upstream: Upstream, parse: Parser, range: DateRange, planet: string, follows: bool)
    ensures var step := PlanetStep(upstream, parse, range, planet, follows);
      && (step.result.Ok? <==> PlanetSucceeds(upstream, parse, range, planet))
      && (step.result.Ok? ==> IsEntryOf(upstream, parse, range, planet, step.result.value))
      && (step.result.Err? ==> !step.result.error.InvalidDate? && step.result.error.planet == planet)
  {
  }

  /** The loop over a non-empty list of planets runs one turn, then goes on with the rest
      unless the turn failed. */
  lemma BatchFromStep(upstream: Upstream, parse: Parser, range: DateRange, planets: seq<string>, done: seq<PlanetEntry>)
    requires planets != []
    ensures var step := PlanetStep(upstream, parse, range, planets[0], |done| > 0);
      && (step.result.Err? ==>
            BatchFrom(upstream, parse, Some(range), planets, done) == Batch(step.requests, step.waits, Err(step.result.error)))
      && (step.result.Ok? ==>
            var rest := BatchFrom(upstream, parse, Some(range), planets[1..], done + [step.result.value]);
            BatchFrom(upstream, parse, Some(range), planets, done)
              == Batch(step.requests + rest.requests, step.waits + rest.waits, rest.result))
  {
  }

  /** The loop over `planets` succeeds exactly when every one of them is fetched and parsed. */
  lemma {:induction false} BatchFromSucceedsIff(upstream: Upstream, parse: Parser, range: DateRange,
                                                planets: seq<string>, done: seq<PlanetEntry>)
    ensures BatchFrom(upstream, parse, Some(range), planets, done).result.Ok?
        <==> forall k :: 0 <= k < |planets| ==> PlanetSucceeds(upstream, parse, range, planets[k])
    decreases |planets|
  {
    if planets != [] {
      var step := PlanetStep(upstream, parse, range, planets[0], |done| > 0);
      BatchFromStep(upstream, parse, range, planets, done);
      PlanetStepOutcome(upstream, parse, range, planets[0], |done| > 0);
      if step.result.Ok? {
        var tail := planets[1..];
        BatchFromSucceedsIff(upstream, parse, range, tail, done + [step.result.value]);
        assert forall k :: 1 <= k < |planets| ==> planets[k] == tail[k - 1];
      }
    }
  }

  /** When the loop over `planets` succeeds, it has appended one entry per planet, in order,
      each read from that planet's response. */
  lemma {:induction false} BatchFromEntries(upstream: Upstream, parse: Parser, range: DateRange,
                                            planets: seq<string>, done: seq<PlanetEntry>)
    ensures var b := BatchFrom(upstream, parse, Some(range), planets, done);
      b.result.Ok? ==>
        && |b.result.value| == |done| + |planets|
        && b.result.value[..|done|] == done
        && forall k :: 0 <= k < |planets| ==> IsEntryOf(upstream, parse, range, planets[k], b.result.value[|done| + k])
    decreases |planets|
  {
    var b := BatchFrom(upstream, parse, Some(range), planets, done);
    if planets != [] && b.result.Ok? {
      var step := PlanetStep(upstream, parse, range, planets[0], |done| > 0);
      BatchFromStep(upstream, parse, range, planets, done);
      PlanetStepOutcome(upstream, parse, range, planets[0], |done| > 0);
      var e := step.result.value;
      var next := done + [e];
      var tail := planets[1..];
      BatchFromEntries(upstream, parse, range, tail, next);
      var v := b.result.value;
      assert v[..|next|] == next;
      assert v[..|done|] == next[..|done|];
      assert v[|done|] == next[|done|] == e;
      forall k | 0 <= k < |planets| ensures IsEntryOf(upstream, parse, range, planets[k], v[|done| + k]) {
        if k > 0 {
          assert planets[k] == tail[k - 1];
          assert |next| + (k - 1) == |done| + k;
        }
      }
    }
  }

  /** When the loop over `planets` fails, it names the first planet that could not be fetched
      or parsed. */
  lemma {:induction false} BatchFromFirstFailure(upstream: Upstream, parse: Parser, range: DateRange,
                                                 planets: seq<string>, done: seq<PlanetEntry>)
    ensures var b := BatchFrom(upstream, parse, Some(range), planets, done);
      b.result.Err? ==>
        exists k :: && 0 <= k < |planets| && !PlanetSucceeds(upstream, parse, range, planets[k])
                    && (forall m :: 0 <= m < k ==> PlanetSucceeds(upstream, parse, range, planets[m]))
                    && !b.result.error.InvalidDate? && b.result.error.planet == planets[k]
    decreases |planets|
  {
    var b := BatchFrom(upstream, parse, Some(range), planets, done);
    if planets != [] && b.result.Err? {
      var step := PlanetStep(upstream, parse, range, planets[0], |done| > 0);
      BatchFromStep(upstream, parse, range, planets, done);
      PlanetStepOutcome(upstream, parse, range, planets[0], |done| > 0);
      if step.result.Ok? {
        var tail := planets[1..];
        BatchFromFirstFailure(upstream, parse, range, tail, done + [step.result.value]);
        var k :| && 0 <= k < |tail| && !PlanetSucceeds(upstream, parse, range, tail[k])
                 && (forall m :: 0 <= m < k ==> PlanetSucceeds(upstream, parse, range, tail[m]))
                 && !b.result.error.InvalidDate? && b.result.error.planet == tail[k];
        assert planets[k + 1] == tail[k];
        assert forall m :: 1 <= m < k + 1 ==> planets[m] == tail[m - 1];
      } else {
        assert !PlanetSucceeds(upstream, parse, range, planets[0]);
      }
    }
  }

  /** An invalid date fails the whole loop before any request or pause. */
  lemma AllPlanetsInvalidDate(upstream: Upstream, parse: Parser)
    ensures AllPlanets(upstream, parse, None) == Batch([], [], Err(InvalidDate))
  {
  }

  /** For a valid date the loop succeeds exactly when every planet is fetched and parsed; it
      then lists the eight planets in catalog order, each with the one state vector read from
      its response. Otherwise it names the first planet that failed. */
  lemma AllPlanetsOutcome(upstream: Upstream, parse: Parser, range: DateRange)
    ensures var b := AllPlanets(upstream, parse, Some(range));
      && (b.result.Ok? <==> forall k :: 0 <= k < |Planets.PLANETS| ==> PlanetSucceeds(upstream, parse, range, Planets.PLANETS[k]))
      && (b.result.Ok? ==>
            && |b.result.value| == |Planets.PLANETS|
            && forall k :: 0 <= k < |Planets.PLANETS| ==> IsEntryOf(upstream, parse, range, Planets.PLANETS[k], b.result.value[k]))
      && (b.result.Err? ==>
            exists k :: && 0 <= k < |Planets.PLANETS| && !PlanetSucceeds(upstream, parse, range, Planets.PLANETS[k])
                        && !b.result.error.InvalidDate? && b.result.error.planet == Planets.PLANETS[k])
  {
    BatchFromSucceedsIff(upstream, parse, range, Planets.PLANETS, []);
    BatchFromEntries(upstream, parse, range, Planets.PLANETS, []);
    BatchFromFirstFailure(upstream, parse, range, Planets.PLANETS, []);
  }

  /** The first attempt for `planet` succeeds and its text parses. */
  ghost predicate AnswersAtOnce(upstream: Upstream, parse: Parser, range: DateRange, planet: string) {
    var o := upstream(Query(planet, range), 0);
    Succeeds(o) && parse(o.body).Ok?
  }

  /** Pacing: when every planet's first attempt succeeds and parses, the loop sends one
      request per planet, in order, and pauses a second before each planet that follows
      another, and nowhere else. */
  lemma {:induction false} PacingFrom(upstream: Upstream, parse: Parser, range: DateRange, planets: seq<string>, done: seq<PlanetEntry>)
    requires forall k :: 0 <= k < |planets| ==> AnswersAtOnce(upstream, parse, range, planets[k])
    ensures var b := BatchFrom(upstream, parse, Some(range), planets, done);
      && |b.requests| == |planets|
      && (forall k :: 0 <= k < |planets| ==> b.requests[k] == Request(Query(planets[k], range), 0))
      && |b.waits| == (if planets == [] then 0 else if |done| > 0 then |planets| else |planets| - 1)
      && forall k :: 0 <= k < |b.waits| ==> b.waits[k] == PLANET_PAUSE
    decreases |planets|
  {
    if planets != [] {
      var planet := planets[0];
      var o := upstream(Query(planet, range), 0);
      assert AnswersAtOnce(upstream, parse, range, planets[0]);
      var a := Retry(upstream, Query(planet, range), MAX_RETRIES, INITIAL_DELAY);
      assert a == Attempts([Request(Query(planet, range), 0)], [], Ok(o.body));
      var next := done + [PlanetEntry(planet, [parse(o.body).value])];
      var tail := planets[1..];
      assert forall k :: 0 <= k < |tail| ==> tail[k] == planets[k + 1];
      PacingFrom(upstream, parse, range, tail, next);
      var r := BatchFrom(upstream, parse, Some(range), planets, done).requests;
      var rest := BatchFrom(upstream, parse, Some(range), tail, next).requests;
      assert r == [Request(Query(planet, range), 0)] + rest;
      forall k | 1 <= k < |planets| ensures r[k] == Request(Query(planets[k], range), 0) {
        assert r[k] == rest[k - 1];
      }
    }
  }

  /** With the eight planets answering at once, GET sends the eight queries once each, in
      catalog order, and waits seven times one second. */
  lemma AllPlanetsPacing(upstream: Upstream, parse: Parser, range: DateRange)
    requires forall k :: 0 <= k < |Planets.PLANETS| ==> AnswersAtOnce(upstream, parse, range, Planets.PLANETS[k])
    ensures var b := AllPlanets(upstream, parse, Some(range));
      && |b.requests| == 8
      && (forall k :: 0 <= k < 8 ==> b.requests[k] == Request(Query(Planets.PLANETS[k], range), 0))
      && |b.waits| == 7 && forall k :: 0 <= k < 7 ==> b.waits[k] == 1000
  {
    PacingFrom(upstream, parse, range, Planets.PLANETS, []);
  }

  /** Whatever the answers, the loop over `planets` makes at most `MAX_RETRIES` requests per
      planet, each one of the first `MAX_RETRIES` attempts of a planet's query. */
  lemma {:induction false} BatchFromRequestBound(upstream: Upstream, parse: Parser, range: DateRange,
                                                 planets: seq<string>, done: seq<PlanetEntry>)
    ensures var r := BatchFrom(upstream, parse, Some(range), planets, done).requests;
      && |r| <= MAX_RETRIES * |planets|
      && forall k :: 0 <= k < |r| ==>
           r[k].attempt < MAX_RETRIES && exists m :: 0 <= m < |planets| && r[k].params == Query(planets[m], range)
    decreases |planets|
  {
    if planets != [] {
      var step := PlanetStep(upstream, parse, range, planets[0], |done| > 0);
      BatchFromStep(upstream, parse, range, planets, done);
      RetrySchedule(upstream, Query(planets[0], range), MAX_RETRIES, INITIAL_DELAY);
      var s := step.requests;
      assert forall k :: 0 <= k < |s| ==> s[k] == Request(Query(planets[0], range), k);
      if step.result.Ok? {
        var tail := planets[1..];
        BatchFromRequestBound(upstream, parse, range, tail, done + [step.result.value]);
        var rest := BatchFrom(upstream, parse, Some(range), tail, done + [step.result.value]).requests;
        var r := s + rest;
        forall k | |s| <= k < |r|
          ensures r[k].attempt < MAX_RETRIES && exists m :: 0 <= m < |planets| && r[k].params == Query(planets[m], range)
        {
          assert r[k] == rest[k - |s|];
          var m :| 0 <= m < |tail| && rest[k - |s|].params == Query(tail[m], range);
          assert tail[m] == planets[m + 1];
        }
      }
    }
  }

  // ---------------------------------------------------------------------------
  // GET and its cache
  // ---------------------------------------------------------------------------

  /** `CACHE_DURATION`: one hour, in milliseconds. */
  const CACHE_DURATION: int := 1000 * 60 * 60

  const MISSING_DATE_MESSAGE := "Date parameter is required"
  const FETCH_FAILED_MESSAGE := "Failed to fetch orbital data"

  /** A cached answer and the time it was stored, in milliseconds. */
  datatype CacheEntry = CacheEntry(data: seq<PlanetEntry>, timestamp: int)

  datatype Body = PlanetList(entries: seq<PlanetEntry>) | ErrorBody(error: string)

  /** The JSON response: a status code and its body. */
  datatype JsonResponse = JsonResponse(status: nat, body: Body)

  /** The cached answer for `key` is still fresh at time `now`. */
  predicate IsFresh(cache: map<string, CacheEntry>, key: string, now: int) {
    key in cache && now - cache[key].timestamp < CACHE_DURATION
  }

  /** The module-level cache and the GET handler that reads and fills it. */
  class PositionsEndpoint {
    var cache: map<string, CacheEntry>

    constructor()
      ensures cache == map[]
    {
      cache := map[];
    }

    /** `GET /api/planets/positions?date=…`. `dateParam` is the `date` search parameter;
        `now` is the clock when the cache is consulted and `storedAt` when it is written. */
    method Get(dateParam: Option<string>, calendar: Calendar, upstream: Upstream, parse: Parser, now: int, storedAt: int)
      returns (response: JsonResponse, requests: seq<Request>, waits: seq<nat>)
      modifies this
      ensures dateParam.None? || dateParam == Some("") ==>
        && response == JsonResponse(400, ErrorBody(MISSING_DATE_MESSAGE))
        && requests == [] && waits == [] && cache == old(cache)
      ensures dateParam.Some? && dateParam.value != "" && IsFresh(old(cache), dateParam.value, now) ==>
        && response == JsonResponse(200, PlanetList(old(cache)[dateParam.value].data))
        && requests == [] && waits == [] && cache == old(cache)
      ensures dateParam.Some? && dateParam.value != "" && !IsFresh(old(cache), dateParam.value, now) ==>
        var b := AllPlanets(upstream, parse, calendar(dateParam.value));
        && requests == b.requests
        && waits == b.waits
        && (b.result.Ok? ==>
              && response == JsonResponse(200, PlanetList(b.result.value))
              && cache == old(cache)[dateParam.value := CacheEntry(b.result.value, storedAt)])
        && (b.result.Err? ==> response == JsonResponse(500, ErrorBody(FETCH_FAILED_MESSAGE)) && cache == old(cache))
    {
      if dateParam.None? || dateParam.value == "" {
        return JsonResponse(400, ErrorBody(MISSING_DATE_MESSAGE)), [], [];
      }
      var cacheKey := dateParam.value;
      if cacheKey in cache && now - cache[cacheKey].timestamp < CACHE_DURATION {
        return JsonResponse(200, PlanetList(cache[cacheKey].data)), [], [];
      }
      var range := calendar(cacheKey);
      var result;
      requests, waits, result := FetchPlanets(upstream, parse, range, Planets.PLANETS);
      if result.Err? {
        return JsonResponse(500, ErrorBody(FETCH_FAILED_MESSAGE)), requests, waits;
      }
      cache := cache[cacheKey := CacheEntry(result.value, storedAt)];
      response := JsonResponse(200, PlanetList(result.value));
    }
  }

  /** Two requests for the same date less than an hour apart, served with the corrected
      parser: when the first succeeds, the second is answered from the cache with the same
      body, without a single request to Horizons and without a pause. */
  method RepeatedRequest(endpoint: PositionsEndpoint, date: string, calendar: Calendar, upstream: Upstream,
                         now1: int, storedAt: int, now2: int)
    returns (first: JsonResponse, second: JsonResponse, requests2: seq<Request>, waits2: seq<nat>)
    requires date != "" && !IsFresh(endpoint.cache, date, now1)
    requires now2 - storedAt < CACHE_DURATION
    modifies endpoint
    ensures first.status == 200 ==> second == first && requests2 == [] && waits2 == []
  {
    var requests1, waits1;
    first, requests1, waits1 := endpoint.Get(Some(date), calendar, upstream, ParseHorizonsData, now1, storedAt);
    second, requests2, waits2 := endpoint.Get(Some(date), calendar, upstream, ParseHorizonsData, now2, storedAt);
  }
}
