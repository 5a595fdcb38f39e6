/** The static planet catalog (src/lib/utils/planets.ts): the ordered list of planet
    identifiers and the per-planet render details. */
module Planets {

  /** `PLANETS`: the eight planets, innermost first. */
  const PLANETS: seq<string> :=
    ["mercury", "venus", "earth", "mars", "jupiter", "saturn", "uranus", "neptune"]

  /** One render-detail record: display colour and size relative to the Earth. */
  datatype PlanetData = PlanetData(name: string, color: string, size: real)

  /** `PLANET_DETAILS`, keyed by planet identifier. */
  const PLANET_DETAILS: map<string, PlanetData> := map[
    "mercury" := PlanetData("mercury", "#A0522D", 0.383),
    "venus" := PlanetData("venus", "#DEB887", 0.949),
    "earth" := PlanetData("earth", "#4B0082", 1.0),
    "mars" := PlanetData("mars", "#CD5C5C", 0.532),
    "jupiter" := PlanetData("jupiter", "#DAA520", 11.21),
    "saturn" := PlanetData("saturn", "#F4A460", 9.45),
    "uranus" := PlanetData("uranus", "#87CEEB", 4.01),
    "neptune" := PlanetData("neptune", "#1E90FF", 3.88)
  ]

  predicate IsHexDigit(c: char) {
    ('0' <= c <= '9') || ('a' <= c <= 'f') || ('A' <= c <= 'F')
  }

  /** A CSS colour of the form `#rrggbb`. */
  predicate IsHexColor(s: string) {
    |s| == 7 && s[0] == '#' && forall i :: 1 <= i < 7 ==> IsHexDigit(s[i])
  }

  /** The list has eight pairwise-distinct entries in orbital order. */
  lemma PlanetsAreEightDistinct()
    ensures |PLANETS| == 8
    ensures forall i, j :: 0 <= i < j < |PLANETS| ==> PLANETS[i] != PLANETS[j]
    ensures PLANETS[0] == "mercury" && PLANETS[2] == "earth" && PLANETS[7] == "neptune"
  {
  }

  /** Every planet has a detail record, there are no others, and each record is named by its key. */
  lemma DetailsCoverPlanets()
    ensures forall p :: p in PLANETS <==> p in PLANET_DETAILS
    ensures forall p :: p in PLANET_DETAILS ==> PLANET_DETAILS[p].name == p
  {
  }

  /** Every relative size is positive, and the Earth is the unit. */
  lemma SizesArePositive()
    ensures forall p :: p in PLANET_DETAILS ==> PLANET_DETAILS[p].size > 0.0
    ensures PLANET_DETAILS["earth"].size == 1.0
  {
  }

  /** Every colour is `#` followed by six hexadecimal digits. */
  lemma ColorsAreHex()
    ensures forall p :: p in PLANET_DETAILS ==> IsHexColor(PLANET_DETAILS[p].color)
  {
  }
}
