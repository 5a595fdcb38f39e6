/** The scene bookkeeping of the 3D view (src/lib/three/solar-system.ts): which meshes and
    orbit lines the scene holds, and where they are placed. Cameras, renderers, controls,
    geometries and materials are left out; a mesh keeps only its colour and position, an
    orbit line only its vertices, and the scene only the set of objects added to it. */
module SolarSystem {
  import opened Outcomes
  import Planets
  import opened PlanetCalculator

  /** `SCALE`: scene units per astronomical unit. */
  const SCALE: real := 4.0

  datatype LightKind = Ambient | Directional

  /** `THREE.AmbientLight` / `THREE.DirectionalLight`. */
  class Light {
    const kind: LightKind

    constructor (kind: LightKind)
      ensures this.kind == kind
    {
      this.kind := kind;
    }
  }

  /** `THREE.Mesh`: a sphere of some colour, placed by `mesh.position.set`. */
  class Mesh {
    const color: string
    var position: Vector3

    constructor (color: string)
      ensures this.color == color
      ensures position == Vector3(0.0, 0.0, 0.0)
    {
      this.color := color;
      position := Vector3(0.0, 0.0, 0.0);
    }
  }

  /** `THREE.Line` built by `createOrbitLine` from a list of vertices. */
  class OrbitLine {
    const points: seq<Vector3>

    constructor (points: seq<Vector3>)
      ensures this.points == points
    {
      this.points := points;
    }
  }

  function MeshSet(meshes: seq<Mesh>): set<object> {
    set i | 0 <= i < |meshes| :: meshes[i] as object
  }

  function LineSet(lines: seq<OrbitLine>): set<object> {
    set i | 0 <= i < |lines| :: lines[i] as object
  }

  /** `planet.orbitPoints.map(p => p * SCALE)`. */
  function ScaledPoints(points: seq<Vector3>): (r: seq<Vector3>)
    ensures |r| == |points|
    ensures forall i :: 0 <= i < |r| ==> r[i] == Scale(points[i], SCALE)
  {
    seq(|points|, i requires 0 <= i < |points| => Scale(points[i], SCALE))
  }

  /** The vertex lists of the orbit lines `updatePlanets` creates for `data`, in order: one
      per record whose `orbitPoints` is present (an empty list counts as present). */
  function OrbitLines(data: seq<PlanetCalculator.PlanetData>): seq<seq<Vector3>> {
    if |data| == 0 then []
    else
      var last := data[|data| - 1];
      OrbitLines(data[..|data| - 1]) + (if last.orbitPoints.Some? then [ScaledPoints(last.orbitPoints.value)] else [])
  }

  /** When every record carries its orbit, there is one line per record, in the same order. */
  lemma {:induction false} OrbitLinePerRecord(data: seq<PlanetCalculator.PlanetData>)
    requires forall i :: 0 <= i < |data| ==> data[i].orbitPoints.Some?
    ensures |OrbitLines(data)| == |data|
    ensures forall i :: 0 <= i < |data| ==> OrbitLines(data)[i] == ScaledPoints(data[i].orbitPoints.value)
  {
    if |data| > 0 {
      var init := data[..|data| - 1];
      OrbitLinePerRecord(init);
    }
  }

  /** The records `calculateSolarSystem` returns are named after `PLANETS`, so each has a
      `PLANET_DETAILS` entry to colour its mesh, and each carries its orbit. */
  lemma CalculatedPlanetsHaveDetails(helio: Ephemeris, t: real, orbitPoints: int)
    ensures var data := CalculateSolarSystem(helio, t, orbitPoints);
      forall i :: 0 <= i < |data| ==>
        && data[i].name == Planets.PLANETS[i]
        && data[i].name in Planets.PLANET_DETAILS
        && data[i].orbitPoints.Some?
  {
    var data := CalculateSolarSystem(helio, t, orbitPoints);
    SolarSystemTable(helio, t, orbitPoints);
    PlanetPositionsTable(helio, t);
    Planets.DetailsCoverPlanets();
    forall i | 0 <= i < |data|
      ensures data[i].name == Planets.PLANETS[i] && data[i].name in Planets.PLANET_DETAILS
    {
      assert data[i].(orbitPoints := None) == CalculatePlanetPositions(helio, t)[i];
      assert Planets.PLANETS[i] in Planets.PLANETS;
    }
  }

  class SolarSystem {
    /** The objects of `this.scene`. */
    var scene: set<object>
    /** `this.planets`: the planet meshes added by the last `updatePlanets`. */
    var planets: seq<Mesh>
    /** `this.orbits`: the orbit lines added by the last `updatePlanets`. */
    var orbits: seq<OrbitLine>
    /** The ambient light, the directional light and the sun the constructor adds. */
    ghost const fixed: set<object>

    /** The scene holds exactly the constructor's objects and the tracked meshes and lines. */
    ghost predicate Valid()
      reads this
    {
      && scene == fixed + MeshSet(planets) + LineSet(orbits)
      && fixed !! MeshSet(planets) + LineSet(orbits)
      && MeshSet(planets) !! LineSet(orbits)
    }

    /** The lights and the sun; the sun's colour is a parameter because the catalog has no
        entry for it. */
    constructor (sunColor: string)
      ensures Valid()
      ensures planets == [] && orbits == []
      ensures scene == fixed && |fixed| == 3
      ensures exists a: Light, d: Light, s: Mesh ::
        fixed == {a, d, s} && a.kind == Ambient && d.kind == Directional && s.color == sunColor
    {
      var ambient := new Light(Ambient);
      var directional := new Light(Directional);
      var sun := new Mesh(sunColor);
      fixed := {ambient, directional, sun};
      scene := {ambient, directional, sun};
      planets := [];
      orbits := [];
    }

    /** The clearing step of `updatePlanets`: every tracked mesh and line leaves the scene,
        and both lists are emptied; the constructor's objects stay. */
    method ClearTracked()
      requires Valid()
      modifies this
      ensures Valid()
      ensures planets == [] && orbits == []
      ensures scene == fixed
    {
      var i := 0;
      while i < |planets|
        invariant 0 <= i <= |planets|
        invariant planets == old(planets) && orbits == old(orbits)
        invariant scene == old(scene) - MeshSet(planets[..i])
      {
        assert MeshSet(planets[..i + 1]) == MeshSet(planets[..i]) + {planets[i]} by {
          assert forall j :: 0 <= j < i + 1 ==> planets[..i + 1][j] == planets[j];
        }
        scene := scene - {planets[i]};
        i := i + 1;
      }
      assert planets[..i] == planets;
      i := 0;
      while i < |orbits|
        invariant 0 <= i <= |orbits|
        invariant planets == old(planets) && orbits == old(orbits)
        invariant scene == old(scene) - MeshSet(planets) - LineSet(orbits[..i])
      {
        assert LineSet(orbits[..i + 1]) == LineSet(orbits[..i]) + {orbits[i]} by {
          assert forall j :: 0 <= j < i + 1 ==> orbits[..i + 1][j] == orbits[j];
        }
        scene := scene - {orbits[i]};
        i := i + 1;
      }
      assert orbits[..i] == orbits;
      planets := [];
      orbits := [];
    }

    /** The body of the `forEach` in `updatePlanets` for one record: a new mesh coloured from
        `PLANET_DETAILS` and placed at `SCALE` times the position joins the scene and
        `planets`; when the record has orbit points, a new line through the scaled points
        joins the scene and `orbits`. */
    method AddPlanet(planet: PlanetCalculator.PlanetData)
      requires Valid()
      requires planet.name in Planets.PLANET_DETAILS
      modifies this
      ensures Valid()
      ensures |planets| == |old(planets)| + 1 && planets[..|old(planets)|] == old(planets)
      ensures var mesh := planets[|old(planets)|];
        && fresh(mesh)
        && mesh.color == Planets.PLANET_DETAILS[planet.name].color
        && mesh.position == Scale(planet.position, SCALE)
      ensures planet.orbitPoints.None? ==> orbits == old(orbits)
      ensures planet.orbitPoints.Some? ==>
        && |orbits| == |old(orbits)| + 1 && orbits[..|old(orbits)|] == old(orbits)
        && fresh(orbits[|old(orbits)|])
        && orbits[|old(orbits)|].points == ScaledPoints(planet.orbitPoints.value)
    {
      var mesh := new Mesh(Planets.PLANET_DETAILS[planet.name].color);
      mesh.position := Scale(planet.position, SCALE);
      scene := scene + {mesh};
      MeshSetAppend(planets, mesh);
      planets := planets + [mesh];
      if planet.orbitPoints.Some? {
        var line := new OrbitLine(ScaledPoints(planet.orbitPoints.value));
        scene := scene + {line};
        LineSetAppend(orbits, line);
        orbits := orbits + [line];
      }
    }

    /** `planetData.forEach(...)`: one `AddPlanet` per record, in order. */
    method AddPlanets(data: seq<PlanetCalculator.PlanetData>)
      requires Valid() && planets == [] && orbits == []
      requires forall i :: 0 <= i < |data| ==> data[i].name in Planets.PLANET_DETAILS
      modifies this
      ensures Valid()
      ensures |planets| == |data|
      ensures forall i :: 0 <= i < |planets| ==>
        && fresh(planets[i])
        && planets[i].color == Planets.PLANET_DETAILS[data[i].name].color
        && planets[i].position == Scale(data[i].position, SCALE)
      ensures |orbits| == |OrbitLines(data)|
      ensures forall i :: 0 <= i < |orbits| ==> fresh(orbits[i]) && orbits[i].points == OrbitLines(data)[i]
    {
      var k := 0;
      while k < |data|
        invariant 0 <= k <= |data|
        invariant Valid()
        invariant |planets| == k
        invariant forall j :: 0 <= j < k ==>
          && fresh(planets[j])
          && planets[j].color == Planets.PLANET_DETAILS[data[j].name].color
          && planets[j].position == Scale(data[j].position, SCALE)
        invariant |orbits| == |OrbitLines(data[..k])|
        invariant forall j :: 0 <= j < |orbits| ==> fresh(orbits[j]) && orbits[j].points == OrbitLines(data[..k])[j]
      {
        AddPlanet(data[k]);
        assert data[..k + 1][..k] == data[..k];
        k := k + 1;
      }
      assert data[..k] == data;
    }

    /** `updatePlanets(date)`: drop the previous meshes and lines from the scene, then add one
        mesh per calculated planet, coloured from `PLANET_DETAILS` and placed at `SCALE` times
        its position, and one orbit line per planet whose orbit is present. */
    method UpdatePlanets(helio: Ephemeris, t: real)
      requires Valid()
      modifies this
      ensures Valid()
      ensures var data := CalculateSolarSystem(helio, t, DEFAULT_ORBIT_POINTS);
        && |planets| == |data|
        && (forall i :: 0 <= i < |planets| ==>
              && fresh(planets[i])
              && planets[i].color == Planets.PLANET_DETAILS[data[i].name].color
              && planets[i].position == Scale(data[i].position, SCALE))
        && |orbits| == |OrbitLines(data)|
        && (forall i :: 0 <= i < |orbits| ==> fresh(orbits[i]) && orbits[i].points == OrbitLines(data)[i])
      ensures scene == fixed + MeshSet(planets) + LineSet(orbits)
    {
      ClearTracked();
      var data := CalculateSolarSystem(helio, t, DEFAULT_ORBIT_POINTS);
      CalculatedPlanetsHaveDetails(helio, t, DEFAULT_ORBIT_POINTS);
      AddPlanets(data);
    }
  }

  lemma MeshSetAppend(meshes: seq<Mesh>, m: Mesh)
    ensures MeshSet(meshes + [m]) == MeshSet(meshes) + {m}
  {
    var s := meshes + [m];
    forall o | o in MeshSet(s) ensures o in MeshSet(meshes) + {m} {
      var i :| 0 <= i < |s| && s[i] == o;
      if i < |meshes| {
        assert meshes[i] == o;
      }
    }
    forall o | o in MeshSet(meshes) + {m} ensures o in MeshSet(s) {
      if o == m {
        assert s[|meshes|] == m;
      } else {
        var i :| 0 <= i < |meshes| && meshes[i] == o;
        assert s[i] == o;
      }
    }
  }

  lemma LineSetAppend(lines: seq<OrbitLine>, l: OrbitLine)
    ensures LineSet(lines + [l]) == LineSet(lines) + {l}
  {
    var s := lines + [l];
    forall o | o in LineSet(s) ensures o in LineSet(lines) + {l} {
      var i :| 0 <= i < |s| && s[i] == o;
      if i < |lines| {
        assert lines[i] == o;
      }
    }
    forall o | o in LineSet(lines) + {l} ensures o in LineSet(s) {
      if o == l {
        assert s[|lines|] == l;
      } else {
        var i :| 0 <= i < |lines| && lines[i] == o;
        assert s[i] == o;
      }
    }
  }

  /** After `updatePlanets` with the default orbit resolution, every planet has one mesh and
      one orbit line of 201 vertices, mesh `i` and line `i` both belonging to `PLANETS[i]`. */
  lemma DefaultSceneShape(helio: Ephemeris, t: real)
    ensures var data := CalculateSolarSystem(helio, t, DEFAULT_ORBIT_POINTS);
      && |data| == |Planets.PLANETS|
      && |OrbitLines(data)| == |Planets.PLANETS|
      && forall i :: 0 <= i < |data| ==>
           && data[i].name == Planets.PLANETS[i]
           && OrbitLines(data)[i] == ScaledPoints(data[i].orbitPoints.value)
           && |OrbitLines(data)[i]| == 201
  {
    var data := CalculateSolarSystem(helio, t, DEFAULT_ORBIT_POINTS);
    CalculatedPlanetsHaveDetails(helio, t, DEFAULT_ORBIT_POINTS);
    OrbitLinePerRecord(data);
    DefaultOrbitsHave201Points(helio, t);
  }

  /** Two successive `updatePlanets` calls leave the constructor's objects and the second
      call's meshes and lines, and none of the first call's: `firstPlanets` and `firstOrbits`
      are the meshes and lines the first call added, one of each per planet. */
  method UpdateTwice(system: SolarSystem, helio: Ephemeris, t1: real, t2: real)
      returns (ghost firstPlanets: seq<Mesh>, ghost firstOrbits: seq<OrbitLine>)
    requires system.Valid()
    modifies system
    ensures system.Valid()
    ensures system.scene == system.fixed + MeshSet(system.planets) + LineSet(system.orbits)
    ensures |system.planets| == |Planets.PLANETS| && |system.orbits| == |Planets.PLANETS|
    ensures forall o :: o in system.scene && o !in system.fixed ==> fresh(o)
    ensures |firstPlanets| == |Planets.PLANETS| && |firstOrbits| == |Planets.PLANETS|
    ensures forall i :: 0 <= i < |firstPlanets| ==> fresh(firstPlanets[i])
    ensures forall i :: 0 <= i < |firstOrbits| ==> fresh(firstOrbits[i])
    ensures MeshSet(firstPlanets) !! system.scene && LineSet(firstOrbits) !! system.scene
  {
    system.UpdatePlanets(helio, t1);
    DefaultSceneShape(helio, t1);
    firstPlanets, firstOrbits := system.planets, system.orbits;
    system.UpdatePlanets(helio, t2);
    DefaultSceneShape(helio, t2);
  }
}
