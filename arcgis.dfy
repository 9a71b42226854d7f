/** Helpers for ArcGIS feature services: building a GeoJSON query URL, the point and polygon
    intersection queries (whose only visible behaviour besides the request is that every
    failure yields an empty list), and reshaping ArcGIS features into a GeoJSON feature
    collection. Geometry is passed through untouched, so it is a type parameter here. */
module ArcGis {
  import opened Wrappers
  import opened Js
  import opened Urls

  /** `buildArcGisQuery(serviceUrl, where = '1=1', limit = 1000)`; an omitted argument is
      `None`. */
  function BuildArcGisQuery(serviceUrl: string, where: Option<string>, limit: Option<int>): (r: Url<string>)
    ensures r.base == serviceUrl + "/query"
    ensures Keys(r.params) == ["f", "outFields", "where", "resultRecordCount"]
    ensures ParamValue(r.params, "f") == Some("geojson") && ParamValue(r.params, "outFields") == Some("*")
    ensures ParamValue(r.params, "where") == Some(where.GetOr("1=1"))
    ensures ParamValue(r.params, "resultRecordCount").Some? &&
            NumberOf(ParamValue(r.params, "resultRecordCount").value) == Some(limit.GetOr(1000))
  {
    var count := limit.GetOr(1000);
    NumberOfIntToString(count);
    var params := [("f", "geojson"), ("outFields", "*"), ("where", where.GetOr("1=1")),
                   ("resultRecordCount", IntToString(count))];
    ParamAt(params, 0); ParamAt(params, 1); ParamAt(params, 2); ParamAt(params, 3);
    Url(serviceUrl + "/query", params)
  }

  /** An ArcGIS geometry as the two queries send it, always in WGS 84 (wkid 4326). A ring
      position keeps `undefined` (`None`) where the input coordinate had no component. */
  datatype EsriGeometry =
    | EsriPoint(x: real, y: real, wkid: int)
    | EsriPolygon(rings: seq<seq<seq<Option<real>>>>, wkid: int)

  datatype QueryValue = Text(s: string) | GeometryJson(g: EsriGeometry)

  /** The i-th component of a coordinate, `undefined` past its end. */
  function Component(coord: seq<real>, i: nat): (r: Option<real>)
    ensures i < |coord| ==> r == Some(coord[i])
    ensures i >= |coord| ==> r == None
  {
    if i < |coord| then Some(coord[i]) else None
  }

  /** The single ring of a polygon query: each coordinate cut down to its first two
      components. */
  function Ring(polygonCoordinates: seq<seq<real>>): (r: seq<seq<Option<real>>>)
    ensures |r| == |polygonCoordinates|
    ensures forall i :: 0 <= i < |r| ==> r[i] == [Component(polygonCoordinates[i], 0), Component(polygonCoordinates[i], 1)]
  {
    seq(|polygonCoordinates|, i requires 0 <= i < |polygonCoordinates| =>
      [Component(polygonCoordinates[i], 0), Component(polygonCoordinates[i], 1)])
  }

  /** The positions of a ring with both components present, as plain pairs. */
  function RingPositions(ring: seq<seq<Option<real>>>): seq<seq<real>>
    requires forall i :: 0 <= i < |ring| ==> |ring[i]| == 2 && ring[i][0].Some? && ring[i][1].Some?
  {
    seq(|ring|, i requires 0 <= i < |ring| => [ring[i][0].value, ring[i][1].value])
  }

  /** On two-dimensional input the ring is the input itself; extra components (an altitude)
      are dropped. */
  lemma RingKeepsPlanarCoordinates(polygonCoordinates: seq<seq<real>>)
    requires forall i :: 0 <= i < |polygonCoordinates| ==> |polygonCoordinates[i]| >= 2
    ensures RingPositions(Ring(polygonCoordinates)) ==
      seq(|polygonCoordinates|, i requires 0 <= i < |polygonCoordinates| => polygonCoordinates[i][..2])
    ensures (forall i :: 0 <= i < |polygonCoordinates| ==> |polygonCoordinates[i]| == 2) ==>
      RingPositions(Ring(polygonCoordinates)) == polygonCoordinates
  {
    var positions := RingPositions(Ring(polygonCoordinates));
    forall i | 0 <= i < |polygonCoordinates| ensures positions[i] == polygonCoordinates[i][..2] {
      assert positions[i] == [polygonCoordinates[i][0], polygonCoordinates[i][1]];
    }
    if forall i :: 0 <= i < |polygonCoordinates| ==> |polygonCoordinates[i]| == 2 {
      forall i | 0 <= i < |polygonCoordinates| ensures positions[i] == polygonCoordinates[i] {
        assert polygonCoordinates[i][..2] == polygonCoordinates[i];
      }
    }
  }

  /** The parameters both intersection queries send, in order. */
  function IntersectParams(geometryType: string, g: EsriGeometry): (r: seq<(string, QueryValue)>)
    ensures ParamValue(r, "f") == Some(Text("json")) && ParamValue(r, "outFields") == Some(Text("*"))
    ensures ParamValue(r, "geometryType") == Some(Text(geometryType))
    ensures ParamValue(r, "geometry") == Some(GeometryJson(g))
    ensures ParamValue(r, "inSR") == Some(Text("4326")) && ParamValue(r, "outSR") == Some(Text("4326"))
  {
    var params := [("f", Text("json")), ("outFields", Text("*")), ("geometryType", Text(geometryType)),
                   ("geometry", GeometryJson(g)), ("inSR", Text("4326")), ("outSR", Text("4326"))];
    ParamAt(params, 0); ParamAt(params, 1); ParamAt(params, 2);
    ParamAt(params, 3); ParamAt(params, 4); ParamAt(params, 5);
    params
  }

  /** The request of `queryFeaturesByPoint`: x is the longitude and y the latitude. */
  function PointQuery(longitude: real, latitude: real, serviceUrl: string): (r: Url<QueryValue>)
    ensures r.base == serviceUrl + "/query"
    ensures ParamValue(r.params, "geometry") == Some(GeometryJson(EsriPoint(longitude, latitude, 4326)))
    ensures ParamValue(r.params, "geometryType") == Some(Text("esriGeometryPoint"))
    ensures ParamValue(r.params, "f") == Some(Text("json"))
    ensures ParamValue(r.params, "inSR") == Some(Text("4326")) && ParamValue(r.params, "outSR") == Some(Text("4326"))
  {
    Url(serviceUrl + "/query", IntersectParams("esriGeometryPoint", EsriPoint(longitude, latitude, 4326)))
  }

  /** The request of `queryFeaturesByPolygon`: a single ring built from the coordinates. */
  function PolygonQuery(polygonCoordinates: seq<seq<real>>, serviceUrl: string): (r: Url<QueryValue>)
    ensures r.base == serviceUrl + "/query"
    ensures ParamValue(r.params, "geometry") == Some(GeometryJson(EsriPolygon([Ring(polygonCoordinates)], 4326)))
    ensures ParamValue(r.params, "geometryType") == Some(Text("esriGeometryPolygon"))
    ensures ParamValue(r.params, "f") == Some(Text("json"))
    ensures ParamValue(r.params, "inSR") == Some(Text("4326")) && ParamValue(r.params, "outSR") == Some(Text("4326"))
  {
    Url(serviceUrl + "/query", IntersectParams("esriGeometryPolygon", EsriPolygon([Ring(polygonCoordinates)], 4326)))
  }

  /** The result of either query given the outcome of its fetch, whose body's `features`
      may be missing: a thrown error or a non-OK status gives `[]`, a body gives its
      `features || []`. */
  function QueryResult<F>(response: Response<Option<seq<F>>>): (r: seq<F>)
    ensures !response.Received? ==> r == []
    ensures response.Received? && response.body.None? ==> r == []
    ensures response.Received? && response.body.Some? ==> r == response.body.value
  {
    match response
    case Received(Some(features)) => features
    case _ => []
  }

  /** A feature as an ArcGIS service returns it. */
  datatype ArcGisFeature<G> = ArcGisFeature(attributes: Record, geometry: G)

  /** A GeoJSON feature and feature collection. */
  datatype Feature<G> = Feature(kind: string, geometry: G, properties: Record)
  datatype FeatureCollection<G> = FeatureCollection(kind: string, features: seq<Feature<G>>)

  /** `arcGisToGeoJSON`: one `Feature` per input feature, in order, with the geometry as is
      and the attributes as properties. */
  function ArcGisToGeoJson<G>(arcgisFeatures: seq<ArcGisFeature<G>>): (r: FeatureCollection<G>)
    ensures r.kind == "FeatureCollection"
    ensures |r.features| == |arcgisFeatures|
    ensures forall i :: 0 <= i < |r.features| ==>
      r.features[i] == Feature("Feature", arcgisFeatures[i].geometry, arcgisFeatures[i].attributes)
  {
    FeatureCollection("FeatureCollection",
      seq(|arcgisFeatures|, i requires 0 <= i < |arcgisFeatures| =>
        Feature("Feature", arcgisFeatures[i].geometry, arcgisFeatures[i].attributes)))
  }

  /** The inverse reshaping: properties back to attributes. */
  function GeoJsonToArcGis<G>(collection: FeatureCollection<G>): seq<ArcGisFeature<G>> {
    seq(|collection.features|, i requires 0 <= i < |collection.features| =>
      ArcGisFeature(collection.features[i].properties, collection.features[i].geometry))
  }

  /** The reshaping loses nothing: turning the collection back gives the input features. */
  lemma ArcGisRoundTrip<G>(arcgisFeatures: seq<ArcGisFeature<G>>)
    ensures GeoJsonToArcGis(ArcGisToGeoJson(arcgisFeatures)) == arcgisFeatures
  {
  }
}
