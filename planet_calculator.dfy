/** The heliocentric position table and the orbit sampler (src/lib/utils/planet-calculator.ts).

    Numbers are reals. Time is a real number of days, and `AstroTime.AddDays` is addition.
    `Astronomy.HelioVector` is an ephemeris this model does not contain: it is the parameter
    `helio`, the heliocentric position in AU of a body at a time. `Math.sqrt` is kept
    symbolic: a distance is the square root of its radicand. */
module PlanetCalculator {
  import opened Outcomes
  import Planets

  datatype Vector3 = Vector3(x: real, y: real, z: real)

  /** `Astronomy.HelioVector(body, time)`. */
  type Ephemeris = (string, real) -> Vector3

  /** `AU_TO_KM`: kilometres in one astronomical unit. */
  const AU_TO_KM: real := 149597870.7

  /** The square root of `radicand`, which `Math.sqrt` computes. */
  datatype Sqrt = Sqrt(radicand: real)

  /** `PlanetData`: a body's position in AU and in km, its distance from the Sun in AU, and
      the points of its orbit once they have been generated. */
  datatype PlanetData = PlanetData(
    name: string, position: Vector3, positionKm: Vector3, distanceFromSun: Sqrt,
    orbitPoints: Option<seq<Vector3>>)

  function Scale(v: Vector3, k: real): Vector3 {
    Vector3(v.x * k, v.y * k, v.z * k)
  }

  function NormSquared(v: Vector3): real {
    v.x * v.x + v.y * v.y + v.z * v.z
  }

  /** The square root taken for `distanceFromSun` is of a number that is never negative, so
      `Math.sqrt` always returns a real distance. */
  lemma DistanceIsReal(v: Vector3)
    ensures NormSquared(v) >= 0.0
  {
    SquareIsNonNegative(v.x);
    SquareIsNonNegative(v.y);
    SquareIsNonNegative(v.z);
  }

  lemma SquareIsNonNegative(a: real)
    ensures a * a >= 0.0
  {
    if a < 0.0 {
      assert a * a == (-a) * (-a);
    }
  }

  /** The record `calculatePlanetPositions` builds for one body. */
  function PlanetAt(helio: Ephemeris, name: string, t: real): PlanetData {
    var p := helio(name, t);
    PlanetData(name, p, Scale(p, AU_TO_KM), Sqrt(NormSquared(p)), None)
  }

  /** `calculatePlanetPositions(date)`: one record per entry of `PLANETS`, in order. */
  function CalculatePlanetPositions(helio: Ephemeris, t: real): (r: seq<PlanetData>)
    ensures |r| == |Planets.PLANETS|
    ensures forall i :: 0 <= i < |r| ==> r[i] == PlanetAt(helio, Planets.PLANETS[i], t)
  {
    seq(|Planets.PLANETS|, i requires 0 <= i < |Planets.PLANETS| => PlanetAt(helio, Planets.PLANETS[i], t))
  }

  /** Each record is named after its `PLANETS` entry, its position is the ephemeris position,
      its kilometre position is that position times `AU_TO_KM` component by component, and its
      distance is the root of a non-negative number. */
  lemma PlanetPositionsTable(helio: Ephemeris, t: real)
    ensures var r := CalculatePlanetPositions(helio, t);
      forall i :: 0 <= i < |r| ==>
        && r[i].name == Planets.PLANETS[i]
        && r[i].position == helio(Planets.PLANETS[i], t)
        && r[i].positionKm.x == r[i].position.x * AU_TO_KM
        && r[i].positionKm.y == r[i].position.y * AU_TO_KM
        && r[i].positionKm.z == r[i].position.z * AU_TO_KM
        && r[i].distanceFromSun.radicand >= 0.0
        && r[i].orbitPoints.None?
  {
    var r := CalculatePlanetPositions(helio, t);
    forall i | 0 <= i < |r| ensures r[i].distanceFromSun.radicand >= 0.0 {
      DistanceIsReal(r[i].position);
    }
  }

  // ---------------------------------------------------------------------------
  // generateOrbitPoints
  // ---------------------------------------------------------------------------

  /** `orbitalPeriods`, in days, keyed by the capitalised body names. */
  const ORBITAL_PERIODS: map<string, real> := map[
    "Mercury" := 87.97, "Venus" := 224.7, "Earth" := 365.26, "Mars" := 686.98,
    "Jupiter" := 4332.59, "Saturn" := 10759.22, "Uranus" := 30688.5, "Neptune" := 60195.0
  ]

  const DEFAULT_PERIOD: real := 365.26

  /** `orbitalPeriods[planetName] || 365.26`: the tabulated period, or a year for any name that
      is not one of the table's own keys (no tabulated period is zero, so `||` never discards
      one). */
  function OrbitalPeriod(name: string): (period: real)
    ensures period > 0.0
    ensures name in ORBITAL_PERIODS ==> period == ORBITAL_PERIODS[name]
    ensures name !in ORBITAL_PERIODS ==> period == DEFAULT_PERIOD
  {
    if name in ORBITAL_PERIODS && ORBITAL_PERIODS[name] != 0.0 then ORBITAL_PERIODS[name] else DEFAULT_PERIOD
  }

  /** The lookup is case-sensitive, so the lower-case names of `PLANETS`, which
      `calculateSolarSystem` passes in, all get the one-year fallback. */
  lemma CatalogNamesGetDefaultPeriod()
    ensures forall p :: p in Planets.PLANETS ==> OrbitalPeriod(p) == DEFAULT_PERIOD
  {
    forall p | p in Planets.PLANETS ensures p !in ORBITAL_PERIODS {
    }
  }

  /** `(i / points) * period`: the day offset of sample `i`. */
  function SampleOffset(i: int, points: int, period: real): real
    requires points > 0
  {
    (i as real / points as real) * period
  }

  /** The sample offsets start at 0, increase strictly, and stay below one period, so the
      samples cover exactly one revolution. */
  lemma SampleOffsetsSpanOnePeriod(points: int, period: real, i: int, j: int)
    requires points > 0 && period > 0.0
    requires 0 <= i < j < points
    ensures SampleOffset(0, points, period) == 0.0
    ensures 0.0 <= SampleOffset(i, points, period) < SampleOffset(j, points, period) < period
  {
    var n := points as real;
    var a := i as real / n;
    var b := j as real / n;
    QuotientsOrdered(i as real, j as real, n);
    assert a * period < b * period;
    assert b * period < period;
  }

  /** Dividing `0 <= x < y < n` by `n` keeps the order and lands in [0, 1). */
  lemma QuotientsOrdered(x: real, y: real, n: real)
    requires 0.0 <= x < y < n
    ensures 0.0 <= x / n < y / n < 1.0
  {
    QuotientBelow(x, y, n);
    QuotientBelow(y, n, n);
    assert n / n == 1.0;
    assert 0.0 / n == 0.0;
    if x > 0.0 {
      QuotientBelow(0.0, x, n);
    }
  }

  /** Dividing by a positive number keeps a strict order. */
  lemma QuotientBelow(x: real, y: real, n: real)
    requires x < y && n > 0.0
    ensures x / n < y / n
  {
    assert y / n - x / n == (y - x) / n;
    assert (y - x) / n > 0.0;
  }

  /** The points `generateOrbitPoints` returns: `points` samples of the ephemeris one
      fraction of a period apart, then the first sample again to close the curve. */
  function OrbitPoints(helio: Ephemeris, name: string, t: real, points: int): seq<Vector3> {
    if points <= 0 then []
    else
      var period := OrbitalPeriod(name);
      var samples := seq(points, i requires 0 <= i < points => helio(name, t + SampleOffset(i, points, period)));
      samples + [samples[0]]
  }

  /** The orbit has `points + 1` points when `points` is positive and none otherwise; the
      last point repeats the first; point `i < points` is the ephemeris position at the
      `i`-th fraction of a period after `t`. */
  lemma OrbitPointsShape(helio: Ephemeris, name: string, t: real, points: int)
    ensures var orbit := OrbitPoints(helio, name, t, points);
      && (points <= 0 ==> orbit == [])
      && (points > 0 ==>
            && |orbit| == points + 1
            && orbit[points] == orbit[0]
            && forall i :: 0 <= i < points ==> orbit[i] == helio(name, t + SampleOffset(i, points, OrbitalPeriod(name))))
  {
  }

  /** `generateOrbitPoints(planetName, date, points)`. */
  method GenerateOrbitPoints(helio: Ephemeris, name: string, t: real, points: int) returns (orbit: seq<Vector3>)
    ensures orbit == OrbitPoints(helio, name, t, points)
  {
    orbit := [];
    var period := OrbitalPeriod(name);
    var i := 0;
    while i < points
      invariant 0 <= i && (points > 0 ==> i <= points) && (points <= 0 ==> i == 0)
      invariant |orbit| == i
      invariant forall k :: 0 <= k < i ==> orbit[k] == helio(name, t + SampleOffset(k, points, period))
    {
      var newTime := t + SampleOffset(i, points, period);
      orbit := orbit + [helio(name, newTime)];
      i := i + 1;
    }
    if |orbit| > 0 {
      orbit := orbit + [orbit[0]];
    }
  }

  // ---------------------------------------------------------------------------
  // calculateSolarSystem
  // ---------------------------------------------------------------------------

  const DEFAULT_ORBIT_POINTS: int := 200

  /** `calculateSolarSystem(date, orbitPoints)`: the position table with each record's orbit
      filled in. */
  function CalculateSolarSystem(helio: Ephemeris, t: real, orbitPoints: int): (r: seq<PlanetData>)
    ensures |r| == |Planets.PLANETS|
  {
    var planets := CalculatePlanetPositions(helio, t);
    seq(|planets|, i requires 0 <= i < |planets| =>
      planets[i].(orbitPoints := Some(OrbitPoints(helio, planets[i].name, t, orbitPoints))))
  }

  /** The solar system keeps the length, order and fields of the position table and adds to
      each record its orbit, sampled with the one-year fallback period. */
  lemma SolarSystemTable(helio: Ephemeris, t: real, orbitPoints: int)
    ensures var r := CalculateSolarSystem(helio, t, orbitPoints);
      var table := CalculatePlanetPositions(helio, t);
      forall i :: 0 <= i < |r| ==>
        && r[i].(orbitPoints := None) == table[i]
        && r[i].orbitPoints == Some(OrbitPoints(helio, Planets.PLANETS[i], t, orbitPoints))
        && OrbitalPeriod(r[i].name) == DEFAULT_PERIOD
  {
    CatalogNamesGetDefaultPeriod();
    var r := CalculateSolarSystem(helio, t, orbitPoints);
    forall i | 0 <= i < |r| ensures OrbitalPeriod(r[i].name) == DEFAULT_PERIOD {
      assert r[i].name == Planets.PLANETS[i];
    }
  }

  /** With the default of 200, every planet gets a closed orbit of 201 points. */
  lemma DefaultOrbitsHave201Points(helio: Ephemeris, t: real)
    ensures var r := CalculateSolarSystem(helio, t, DEFAULT_ORBIT_POINTS);
      forall i :: 0 <= i < |r| ==>
        r[i].orbitPoints.Some? && |r[i].orbitPoints.value| == 201 &&
        r[i].orbitPoints.value[200] == r[i].orbitPoints.value[0]
  {
    var r := CalculateSolarSystem(helio, t, DEFAULT_ORBIT_POINTS);
    forall i | 0 <= i < |r|
      ensures r[i].orbitPoints.Some? && |r[i].orbitPoints.value| == 201 &&
              r[i].orbitPoints.value[200] == r[i].orbitPoints.value[0]
    {
      OrbitPointsShape(helio, r[i].name, t, DEFAULT_ORBIT_POINTS);
    }
  }
}
