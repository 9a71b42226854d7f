/** Loading the boundary layer (`useMapData`): a query to the selected TIGERweb service,
    filtered to the selected state below state level; when that fails or returns no
    features, a static fallback file chosen by level; when that fails too, an empty
    collection and an error. */
module MapData {
  import opened Wrappers
  import opened Js
  import opened Urls

  /** A GeoJSON document as parsed from a response; `features` may be missing. */
  datatype GeoJson = GeoJson(kind: Value, features: Option<seq<Record>>)

  const EMPTY_COLLECTION := GeoJson(Str("FeatureCollection"), Some([]))

  /** The three static fallback files. Their URLs come from a constant that is not part of
      this model, so they stay abstract. */
  datatype FallbackFile = FallbackStates | FallbackCounties | FallbackTracts

  /** A toast: its title and description. */
  datatype Toast = Toast(title: string, description: string)

  /** The toast raised when the primary service fails and the fallback files are used. */
  const SERVICE_UNAVAILABLE := Toast("Geographic data service unavailable", "Using fallback data sources")

  /** The query's `where`: `STATE='<region>'` when a region is selected below state level,
      else every feature. */
  function WhereClause(selectedRegion: Option<string>, geographyLevel: string): (r: string)
    ensures (selectedRegion.Some? && selectedRegion.value != "" && geographyLevel != "state") ==>
      r == "STATE='" + selectedRegion.value + "'"
    ensures !(selectedRegion.Some? && selectedRegion.value != "" && geographyLevel != "state") ==> r == "1=1"
  {
    var params := PrimaryQuery(selectedRegion, geographyLevel, "").params;
    ParamValueOfPrimary(selectedRegion, geographyLevel);
    ParamValue(params, "where").value
  }

  /** The primary request: `f=geojson`, `outFields=*`, `where=1=1`, with `where` then set to
      the state filter when a region is selected below state level. */
  function PrimaryQuery(selectedRegion: Option<string>, geographyLevel: string, selectedLayerService: string): Url<string> {
    var params := [("f", "geojson"), ("outFields", "*"), ("where", "1=1")];
    var params' :=
      if selectedRegion.Some? && selectedRegion.value != "" && geographyLevel != "state" then
        SetParam(params, "where", "STATE='" + selectedRegion.value + "'")
      else params;
    Url(selectedLayerService + "/query", params')
  }

  lemma ParamValueOfPrimary(selectedRegion: Option<string>, geographyLevel: string)
    ensures ParamValue(PrimaryQuery(selectedRegion, geographyLevel, "").params, "where").Some?
    ensures (selectedRegion.Some? && selectedRegion.value != "" && geographyLevel != "state") ==>
      ParamValue(PrimaryQuery(selectedRegion, geographyLevel, "").params, "where") == Some("STATE='" + selectedRegion.value + "'")
    ensures !(selectedRegion.Some? && selectedRegion.value != "" && geographyLevel != "state") ==>
      ParamValue(PrimaryQuery(selectedRegion, geographyLevel, "").params, "where") == Some("1=1")
  {
    var params := [("f", "geojson"), ("outFields", "*"), ("where", "1=1")];
    ParamAt(params, 2);
  }

  /** Setting `where` keeps the request's keys and their order: f, outFields, where. */
  lemma PrimaryQueryKeys(selectedRegion: Option<string>, geographyLevel: string, selectedLayerService: string)
    ensures PrimaryQuery(selectedRegion, geographyLevel, selectedLayerService).base == selectedLayerService + "/query"
    ensures Keys(PrimaryQuery(selectedRegion, geographyLevel, selectedLayerService).params) == ["f", "outFields", "where"]
    ensures ParamValue(PrimaryQuery(selectedRegion, geographyLevel, selectedLayerService).params, "f") == Some("geojson")
    ensures ParamValue(PrimaryQuery(selectedRegion, geographyLevel, selectedLayerService).params, "outFields") == Some("*")
  {
    var params := PrimaryQuery(selectedRegion, geographyLevel, selectedLayerService).params;
    ParamAt(params, 0);
    ParamAt(params, 1);
  }

  /** The fallback file: counties at county level, tracts at tract and block-group level,
      states at every other level. */
  function FallbackFor(geographyLevel: string): (r: FallbackFile)
    ensures r == FallbackCounties <==> geographyLevel == "county"
    ensures r == FallbackTracts <==> geographyLevel == "tract" || geographyLevel == "blockGroup"
  {
    if geographyLevel == "county" then FallbackCounties
    else if geographyLevel == "tract" || geographyLevel == "blockGroup" then FallbackTracts
    else FallbackStates
  }

  /** A primary response the effect accepts: OK, with a non-empty `features` list. */
  predicate Usable(response: Response<GeoJson>) {
    response.Received? && response.body.features.Some? && |response.body.features.value| > 0
  }

  /** The hook's state. A load runs in up to three steps: `StartLoad`, then
      `PrimaryArrived`, then, only when that asks for it, `FallbackArrived`. */
  class MapDataLoader {
    var usGeoJson: Option<GeoJson>
    var isMapLoaded: bool
    var isLoading: bool
    var error: Option<string>
    /** The fallback file a failed primary request asked for, awaiting its response. */
    var pendingFallback: Option<FallbackFile>

    constructor ()
      ensures usGeoJson == None && !isMapLoaded && isLoading && error == None && pendingFallback == None
    {
      usGeoJson := None;
      isMapLoaded := false;
      isLoading := true;
      error := None;
      pendingFallback := None;
    }

    /** The effect starts: loading, no error, and the primary request to send. */
    method StartLoad(selectedRegion: Option<string>, geographyLevel: string, selectedLayerService: string)
      returns (request: Url<string>)
      modifies this
      ensures request == PrimaryQuery(selectedRegion, geographyLevel, selectedLayerService)
      ensures isLoading && error == None && pendingFallback == None
      ensures usGeoJson == old(usGeoJson) && isMapLoaded == old(isMapLoaded)
    {
      isLoading := true;
      error := None;
      pendingFallback := None;
      request := PrimaryQuery(selectedRegion, geographyLevel, selectedLayerService);
    }

    /** The primary response arrives. A usable one is shown; anything else (a thrown
        error, a non-OK status, missing or no features) raises the service-unavailable
        toast and asks for the level's fallback file, and nothing else changes yet. */
    method PrimaryArrived(geographyLevel: string, response: Response<GeoJson>) returns (fallback: Option<FallbackFile>, toast: Option<Toast>)
      modifies this
      ensures Usable(response) ==>
        fallback == None && usGeoJson == Some(response.body) && isMapLoaded && !isLoading && error == old(error)
      ensures !Usable(response) ==>
        fallback == Some(FallbackFor(geographyLevel)) && usGeoJson == old(usGeoJson) &&
        isMapLoaded == old(isMapLoaded) && isLoading == old(isLoading) && error == old(error)
      ensures pendingFallback == fallback
      ensures toast.Some? <==> !Usable(response)
      ensures !Usable(response) ==> toast == Some(SERVICE_UNAVAILABLE)
    {
      toast := None;
      if Usable(response) {
        usGeoJson := Some(response.body);
        isMapLoaded := true;
        isLoading := false;
        fallback := None;
      } else {
        var geoJsonUrl := FallbackStates;
        if geographyLevel == "county" {
          geoJsonUrl := FallbackCounties;
        } else if geographyLevel == "tract" || geographyLevel == "blockGroup" {
          geoJsonUrl := FallbackTracts;
        }
        toast := Some(SERVICE_UNAVAILABLE);
        fallback := Some(geoJsonUrl);
      }
      pendingFallback := fallback;
    }

    /** The fallback response arrives (a failed fetch or an unparsable body is `Err`). Any
        parsed document is shown, with or without features; a failure records the error,
        stops loading and shows an empty collection, leaving `isMapLoaded` as it was. */
    method FallbackArrived(response: Result<GeoJson>)
      requires pendingFallback.Some?
      modifies this
      ensures response.Ok? ==> usGeoJson == Some(response.value) && isMapLoaded && !isLoading && error == old(error)
      ensures response.Err? ==>
        usGeoJson == Some(EMPTY_COLLECTION) && isMapLoaded == old(isMapLoaded) && !isLoading && error == Some(response.message)
      ensures pendingFallback == None
    {
      pendingFallback := None;
      match response
      case Ok(data) =>
        usGeoJson := Some(data);
        isMapLoaded := true;
        isLoading := false;
      case Err(message) =>
        error := Some(message);
        isLoading := false;
        usGeoJson := Some(EMPTY_COLLECTION);
    }
  }

  /** Every load ends with something to show and loading off: after a usable primary
      response, or after the fallback either way. */
  method LoadOnce(loader: MapDataLoader, selectedRegion: Option<string>, geographyLevel: string, service: string,
                  primary: Response<GeoJson>, fallback: Result<GeoJson>) returns (toast: Option<Toast>)
    modifies loader
    ensures loader.usGeoJson.Some? && !loader.isLoading
    ensures Usable(primary) ==> loader.usGeoJson == Some(primary.body) && loader.isMapLoaded
    ensures !Usable(primary) && fallback.Ok? ==> loader.usGeoJson == Some(fallback.value) && loader.isMapLoaded
    ensures !Usable(primary) && fallback.Err? ==> loader.error == Some(fallback.message)
    ensures toast == if Usable(primary) then None else Some(SERVICE_UNAVAILABLE)
  {
    var request := loader.StartLoad(selectedRegion, geographyLevel, service);
    var file;
    file, toast := loader.PrimaryArrived(geographyLevel, primary);
    if file.Some? {
      loader.FallbackArrived(fallback);
    }
  }
}
