/** The map's view state (`useMapState`): centre, zoom, the selected boundary service and
    the tool settings, with the two updates that follow the geography level and the
    selected region. */
module MapState {
  import opened Wrappers
  import opened Js
  import MapConstants

  /** A map centre as [latitude, longitude]. */
  type LatLng = (real, real)

  const US_CENTER: LatLng := (39.8283, -98.5795)
  const US_ZOOM := 4
  const STATE_CENTER: LatLng := (36.7783, -119.4179)
  const LOCAL_CENTER: LatLng := (37.7749, -122.4194)

  /** A map view: centre and zoom. */
  datatype View = View(center: LatLng, zoom: int)

  /** The view `updateMapView` moves to for a selected region at a level; `None` for a level
      it does not recognise. The centre is a fixed point per level, whatever the region. */
  function RegionView(level: string): Option<View> {
    if level == "state" then Some(View(STATE_CENTER, 6))
    else if level == "county" then Some(View(LOCAL_CENTER, 8))
    else if level == "tract" || level == "blockGroup" then Some(View(LOCAL_CENTER, 10))
    else if level == "block" then Some(View(LOCAL_CENTER, 12))
    else if level == "zip" then Some(View(LOCAL_CENTER, 8))
    else None
  }

  /** The levels with a region view are the table's levels plus zip, and every region view
      zooms in from the national view. */
  lemma RegionViewLevels(level: string)
    ensures RegionView(level).Some? <==> MapConstants.FindLevel(level).Some? || level == "zip"
    ensures RegionView(level).Some? ==> RegionView(level).value.zoom > US_ZOOM
  {
    MapConstants.LevelIds(level);
  }

  /** Deeper levels zoom further in: state, then county (and zip), then tract and block
      group, then block. */
  lemma ZoomDeepens()
    ensures RegionView("state").value.zoom < RegionView("county").value.zoom
    ensures RegionView("county").value.zoom == RegionView("zip").value.zoom
    ensures RegionView("county").value.zoom < RegionView("tract").value.zoom
    ensures RegionView("tract").value.zoom == RegionView("blockGroup").value.zoom
    ensures RegionView("blockGroup").value.zoom < RegionView("block").value.zoom
  {
  }

  class MapState {
    /** The hook's `geographyLevel` argument, `'state'` when omitted. */
    const geographyLevel: string
    var mapCenter: LatLng
    var zoomLevel: int
    var searchResults: seq<Record>
    var selectedLayerService: string
    var activeTool: string
    var dataGranularity: string
    var areaOfInterest: Option<Record>

    /** The initial state: the national view, the states service, the pan tool and tract
        granularity, with no area of interest and no search results. */
    constructor (geographyLevel: Option<string>)
      ensures this.geographyLevel == geographyLevel.GetOr("state")
      ensures mapCenter == US_CENTER && zoomLevel == US_ZOOM
      ensures searchResults == [] && selectedLayerService == MapConstants.STATES_SERVICE
      ensures activeTool == "pan" && dataGranularity == "tract" && areaOfInterest == None
    {
      this.geographyLevel := geographyLevel.GetOr("state");
      mapCenter := US_CENTER;
      zoomLevel := US_ZOOM;
      searchResults := [];
      selectedLayerService := MapConstants.STATES_SERVICE;
      activeTool := "pan";
      dataGranularity := "tract";
      areaOfInterest := None;
    }

    /** `updateLayerService(level)`: a level in the table selects its service; any other
        level (zip, say) changes nothing. */
    method UpdateLayerService(level: string)
      modifies this
      ensures MapConstants.FindLevel(level).Some? ==> selectedLayerService == MapConstants.FindLevel(level).value.service
      ensures MapConstants.FindLevel(level).None? ==> selectedLayerService == old(selectedLayerService)
      ensures mapCenter == old(mapCenter) && zoomLevel == old(zoomLevel) && searchResults == old(searchResults)
      ensures activeTool == old(activeTool) && dataGranularity == old(dataGranularity)
      ensures areaOfInterest == old(areaOfInterest)
    {
      var currentLevel := MapConstants.FindLevel(level);
      if currentLevel.Some? {
        selectedLayerService := currentLevel.value.service;
      }
    }

    /** `updateMapView(region, level)`: with a region, move to the region view of `level ||
        geographyLevel`, or stay put for a level without one; with no region, go back to the
        national view. Nothing else changes. */
    method UpdateMapView(region: Option<string>, level: Option<string>)
      modifies this
      ensures (region.None? || region.value == "") ==> mapCenter == US_CENTER && zoomLevel == US_ZOOM
      ensures region.Some? && region.value != "" ==>
        var newLevel := if level.Some? && level.value != "" then level.value else geographyLevel;
        match RegionView(newLevel)
        case Some(v) => mapCenter == v.center && zoomLevel == v.zoom
        case None => mapCenter == old(mapCenter) && zoomLevel == old(zoomLevel)
      ensures selectedLayerService == old(selectedLayerService) && searchResults == old(searchResults)
      ensures activeTool == old(activeTool) && dataGranularity == old(dataGranularity)
      ensures areaOfInterest == old(areaOfInterest)
    {
      if region.Some? && region.value != "" {
        var newLevel := if level.Some? && level.value != "" then level.value else geographyLevel;
        if newLevel == "state" {
          zoomLevel := 6;
          mapCenter := STATE_CENTER;
        } else if newLevel == "county" {
          zoomLevel := 8;
          mapCenter := LOCAL_CENTER;
        } else if newLevel == "tract" || newLevel == "blockGroup" {
          zoomLevel := 10;
          mapCenter := LOCAL_CENTER;
        } else if newLevel == "block" {
          zoomLevel := 12;
          mapCenter := LOCAL_CENTER;
        } else if newLevel == "zip" {
          zoomLevel := 8;
          mapCenter := LOCAL_CENTER;
        }
      } else {
        mapCenter := US_CENTER;
        zoomLevel := US_ZOOM;
      }
    }
  }
}
