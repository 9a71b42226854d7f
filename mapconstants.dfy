/** The map's fixed tables: the TIGERweb boundary services, the geography levels the layer
    selector offers (each with its service), and the Census geocoder endpoints. */
module MapConstants {
  import opened Wrappers

  const TIGERWEB_ROOT := "https://tigerweb.geo.census.gov/arcgis/rest/services/TIGERweb/"
  const CENSUS_2020 := "tigerWMS_Census2020/MapServer/"

  const STATES_SERVICE := TIGERWEB_ROOT + "State_County/MapServer/1"
  const COUNTIES_SERVICE := TIGERWEB_ROOT + "State_County/MapServer/3"
  const TRACTS_SERVICE := TIGERWEB_ROOT + CENSUS_2020 + "2"
  const BLOCK_GROUPS_SERVICE := TIGERWEB_ROOT + CENSUS_2020 + "3"
  const BLOCKS_SERVICE := TIGERWEB_ROOT + CENSUS_2020 + "10"

  /** An entry of the geography-level table. */
  datatype GeographyLevel = GeographyLevel(id: string, name: string, service: string)

  const GEOGRAPHY_LEVELS: seq<GeographyLevel> := [
    GeographyLevel("state", "States", STATES_SERVICE),
    GeographyLevel("county", "Counties", COUNTIES_SERVICE),
    GeographyLevel("tract", "Census Tracts", TRACTS_SERVICE),
    GeographyLevel("blockGroup", "Block Groups", BLOCK_GROUPS_SERVICE),
    GeographyLevel("block", "Census Blocks", BLOCKS_SERVICE)
  ]

  const GEOCODER_ROOT := "https://geocoding.geo.census.gov/geocoder/"
  const ONELINE_ADDRESS_ENDPOINT := GEOCODER_ROOT + "locations/onelineaddress"
  const ADDRESS_ENDPOINT := GEOCODER_ROOT + "locations/address"
  const COORDINATES_ENDPOINT := GEOCODER_ROOT + "geographies/coordinates"
  const GEOCODER_BENCHMARK := "2020"
  const GEOCODER_VINTAGE := "2020"
  /** The geocoder configuration has no API key. */
  const GEOCODER_KEY: Option<string> := None

  /** `GEOGRAPHY_LEVELS.find(l => l.id === id)`. */
  function FindLevel(id: string): (r: Option<GeographyLevel>)
    ensures r.Some? ==> r.value in GEOGRAPHY_LEVELS && r.value.id == id
    ensures r.None? <==> forall i :: 0 <= i < |GEOGRAPHY_LEVELS| ==> GEOGRAPHY_LEVELS[i].id != id
  {
    FindLevelIn(GEOGRAPHY_LEVELS, id)
  }

  function FindLevelIn(levels: seq<GeographyLevel>, id: string): (r: Option<GeographyLevel>)
    ensures r.Some? ==> r.value in levels && r.value.id == id
    ensures r.None? <==> forall i :: 0 <= i < |levels| ==> levels[i].id != id
    decreases |levels|
  {
    if levels == [] then None
    else if levels[0].id == id then Some(levels[0])
    else
      var r := FindLevelIn(levels[1..], id);
      assert forall i :: 1 <= i < |levels| ==> levels[i] == levels[1..][i - 1];
      r
  }

  /** The levels in the table are exactly state, county, tract, blockGroup and block; zip
      is not one of them. */
  lemma LevelIds(id: string)
    ensures FindLevel(id).Some? <==> id in {"state", "county", "tract", "blockGroup", "block"}
  {
    var ids := ["state", "county", "tract", "blockGroup", "block"];
    assert forall i :: 0 <= i < 5 ==> GEOGRAPHY_LEVELS[i].id == ids[i];
    assert id in {"state", "county", "tract", "blockGroup", "block"} <==> id in ids;
    if id in ids {
      var k :| 0 <= k < 5 && ids[k] == id;
      assert GEOGRAPHY_LEVELS[k].id == id;
    }
  }
}
