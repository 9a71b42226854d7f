# geo-data-sleuth, modelled in Dafny

geo-data-sleuth is a web dashboard for United States Census data. It shows American
Community Survey statistics on a choropleth map of states, counties, tracts or ZIP areas,
lets the user drill down from a region to the level below, geocodes street addresses
through the Census geocoder (from a one-line search box or a four-field form, with a
case-insensitive result cache and chunked batch lookups), falls back to a small built-in
gazetteer when the geocoder fails, queries ArcGIS feature services by point or polygon,
and answers questions in a keyword-driven chat.

This project models the dashboard's logic, with no rendering:

- building Census API URLs and turning the API's header-plus-rows tables into records;
- the variable catalogue;
- joining statistics rows to map features, and the colour buckets;
- the click and tooltip decisions of the map layers;
- the map view state machine;
- loading the map's geography with its fallback;
- the breadcrumb;
- the geocoding service, with its cache and batches;
- place search, with its gazetteer fallback;
- the two geocoding forms;
- the ArcGIS query helpers;
- the chat's reply rules and message list.

Every remote call (Census geocoder, ArcGIS, TIGERweb, fallback files) is a parameter
holding the outcome the call would have: `Failed(message)` for a thrown error or abort,
`HttpError(status, text)` for a non-OK response, `Received(body)` for a parsed body. A
component whose state React updates in place is a class. Its asynchronous handler is split
into the method that runs before the `await` and the method that runs when the answer
arrives. JavaScript values that matter (`undefined`, strings, numbers, truthiness, `||`)
are the `Js.Value` datatype. Numbers are integers, except for coordinates and percentages,
which are reals.

Modules, one per source file, plus shared helpers:

| module | file | models |
|---|---|---|
| `Wrappers`, `Strings`, `Js`, `Urls` | wrappers.dfy, strings.dfy, js.dfy, urls.dfy | `Option`/`Result`/remote outcome; `includes`, `toLowerCase`, `split`, `join`, `trim`, `filter(Boolean)`; JavaScript values, `Number()`, `String()`; `URLSearchParams` as an ordered list of pairs |
| `Census` | census.dfy | src/lib/census.ts |
| `FeatureJoin`, `MapStyles` | featurejoin.dfy, mapstyles.dfy | the row-to-feature join shared by the layers; src/components/map/mapStyles.ts |
| `FeatureHandlers` | featurehandlers.dfy | src/components/map/featureHandlers.ts |
| `GeoJsonLayer` | geojsonlayer.dfy | src/components/map/GeoJsonLayer.tsx |
| `MapConstants` | mapconstants.dfy | the tables of src/components/map/mapConstants.ts |
| `MapState` | mapstate.dfy | src/hooks/useMapState.ts |
| `MapData` | mapdata.dfy | src/hooks/useMapData.tsx |
| `Breadcrumb` | breadcrumb.dfy | src/components/map/GeographyBreadcrumb.tsx |
| `ArcGis` | arcgis.dfy | src/lib/arcgisService.ts |
| `GeocodingService` | geocodingservice.dfy | src/services/geocodingService.ts |
| `SearchUtils` | searchutils.dfy | src/components/map/utils/searchUtils.ts |
| `SearchBox` | searchbox.dfy | src/components/geocoding/SearchBoxGeocoder.tsx |
| `AddressGeocoder` | addressgeocoder.dfy | src/components/geocoding/AddressGeocoder.tsx |
| `Chat` | chat.dfy | src/hooks/useChatWithData.tsx |

## Model

| member | source | states |
|---|---|---|
| Census.DatasetIgnoresYear | src/lib/census.ts:74-76 | the dataset is `acs/acs5` whatever the year |
| Census.CensusUrlLayout | src/lib/census.ts:79-105 | about `BuildCensusUrl`: the URL is `https://api.census.gov/data/<year>/acs/acs5?get=` followed by `NAME` and the variables in order (split back on commas), then the geography clause |
| Census.StateIgnoresRegionCode | src/lib/census.ts:90-91 | at state level the clause is `&for=state:*` and the region code changes nothing |
| Census.RegionFilterPlacement | src/lib/census.ts:90-102 | the clause filters by state (`&in=state:`) exactly for county or place with a truthy code, and then ends with that code |
| Census.RegionFilterWithCode | src/lib/census.ts:92-97 | county or place with a non-empty code gets the state filter ending in the code |
| Census.NoRegionFilter | src/lib/census.ts:90-102 | any other combination has no state filter |
| Census.UnlistedTypeHasNoClause | src/lib/census.ts:90-102 | an unlisted geography type, or place without a code, adds no clause at all |
| Census.Coerce | src/lib/census.ts:151-156 | a truthy cell that reads as a number becomes that number; any other cell is kept as it is |
| Census.FillRecordKeys | src/lib/census.ts:150-159 | the record's keys are exactly the headers |
| Census.FillRecordValues | src/lib/census.ts:150-159 | each key holds the coerced cell of its last header occurrence, so a later duplicate header overwrites an earlier one |
| Census.RowRecords | src/lib/census.ts:146-169 | one record per data row, in row order |
| Census.ProcessCensusResponse | src/lib/census.ts:138-170 | no data or at most one row gives `[]`; otherwise exactly `rows - 1` records, record i built from the header row and row i+1 |
| Census.RowRecordSpec | src/lib/census.ts:146-169 | every column other than a shadowed `geoid` keeps its coerced cell in the final record |
| Census.GeoidRule | src/lib/census.ts:161-166 | `geoid` is state then county when both are truthy, else the state when truthy, else absent; no other key changes |
| Census.GeoidLosesLeadingZeros | src/lib/census.ts:154-166 | the geoid is built after numeric coercion: "06" and "037" give "637", and "06" alone gives the number 6 |
| Census.CalculatePercentage | src/lib/census.ts:132-135 | a zero denominator gives 0; otherwise the result times the denominator is 100 times the numerator |
| Census.GetVariablesByCategory | src/lib/census.ts:173-175 | exactly the catalogue's entries of that category, in catalogue order |
| Census.FilterCategorySpec | src/lib/census.ts:173-175 | filtering keeps exactly the entries of the category, as a subsequence |
| Census.VariablesByCategoryAreItsBlock | src/lib/census.ts:16-71 | a category's variables are its block of the table: five each, four for Demographics, none for Energy Prices |
| Census.CategoriesAreThoseWithVariables | src/lib/census.ts:178-180 | the eight categories offered are exactly those with variables, each listed once |
| Census.FindIndexById | src/lib/census.ts:183-185 | the first index with the id, or none when no entry has it |
| Census.GetVariableById | src/lib/census.ts:183-185 | a catalogue entry with that id, and `undefined` exactly when no entry has it |
| FeatureJoin.Find | src/components/map/mapStyles.ts:15-27 | `find` returns a matching row exactly when one exists |
| FeatureJoin.FindIndex | src/components/map/mapStyles.ts:15-27 | the match found is the first in data order |
| FeatureJoin.FirstMatchWins | src/components/map/mapStyles.ts:15 | when row k matches and no earlier row does, row k is used |
| FeatureJoin.OtherLevelsNeverMatch | src/components/map/mapStyles.ts:15-27 | at a level other than state, county or zip no row ever matches |
| FeatureJoin.GeoidOverridesName | src/components/map/GeoJsonLayer.tsx:52-60 | when both row and feature have a GEOID, GEOID equality alone decides the popup match |
| MapStyles.StyleWithFill | src/components/map/mapStyles.ts:42-48 | weight 1, opacity 1, colour white and fill opacity 0.7 are fixed; only the fill varies |
| MapStyles.RegionStyle | src/components/map/mapStyles.ts:2-50 | no data or no variable gives `#b3e5fc`; an unmatched feature gives `#dddddd`; a matched one is coloured by its row's value |
| MapStyles.BucketColorIsRank | src/components/map/mapStyles.ts:33-40 | about `GetColor` (through `BucketColor`): a nonzero value's colour is the palette entry of the number of thresholds (25000, 50000, 75000, 100000) it strictly exceeds |
| MapStyles.RankMonotone | src/components/map/mapStyles.ts:35-39 | the bucket rank never decreases as the value grows |
| MapStyles.ColorMonotone | src/components/map/mapStyles.ts:35-39 | for a ≤ b, a's colour ranks no higher than b's |
| MapStyles.ThresholdsAreStrict | src/components/map/mapStyles.ts:35-39 | exactly 25000 and negative values get the lowest colour; 25001 the next; 100000 is not above 100000 |
| MapStyles.ZeroTextIsNotNoData | src/components/map/mapStyles.ts:34 | the number 0 is "no data" but the text "0" is truthy and coloured |
| MapStyles.NoSelectionIsUniform | src/components/map/mapStyles.ts:4-12 | with no data or no variable every feature gets the same style |
| MapStyles.OnlyFillVaries | src/components/map/mapStyles.ts:5-11 | two styles with the same fill are the same style |
| MapStyles.EmptyObjectStyleAsWritten | src/components/map/mapStyles.ts:15-27 | styling the empty object `{}` throws exactly when there is a selection, the level is state, county or zip, and some row has a truthy NAME |
| MapStyles.EmptyObjectStyleThrows | src/components/map/mapStyles.ts:15-27 | a concrete selection on which styling `{}` throws |
| MapStyles.DefaultStyle | src/components/map/mapStyles.ts:2-50 | the style of a feature without properties: the base colour without a selection, the no-data colour with one |
| MapStyles.NothingMatchesNoProperties | src/components/map/mapStyles.ts:15-27 | a feature without properties matches no row |
| FeatureHandlers.NextLevel | src/components/map/featureHandlers.ts:39-41 | state leads to county, county to zip, anything else to state |
| FeatureHandlers.RegionLabel | src/components/map/featureHandlers.ts:44 | the region id is `name` when truthy, else `ZCTA5CE10` |
| FeatureHandlers.HandlerBinding | src/components/map/featureHandlers.ts:11-49 | nothing is bound without a selection; tooltip and click are bound exactly when the matched row's value is truthy; the click selects (label, next level) only with a callback |
| FeatureHandlers.Layer.OnEachFeature | src/components/map/featureHandlers.ts:11-49 | the layer gets the tooltip and click of the binding, or is left untouched |
| FeatureHandlers.NoDataColorIffFalsy | src/components/map/featureHandlers.ts:29 | the no-data colour is chosen exactly for a falsy value |
| FeatureHandlers.TooltipIffColoured | src/components/map/featureHandlers.ts:29-36 | a feature gets a tooltip exactly when its fill is not the no-data colour |
| GeoJsonLayer.NextLevel | src/components/map/GeoJsonLayer.tsx:33-35 | state leads to county, county to tract, anything else to state |
| GeoJsonLayer.RegionId | src/components/map/GeoJsonLayer.tsx:38-45 | the first truthy of STATEFP, GEOID, name at state level; COUNTYFP, GEOID at county level; GEOID, TRACTCE otherwise |
| GeoJsonLayer.PopupTitle | src/components/map/GeoJsonLayer.tsx:70-73 | always truthy: NAME, else name, else GEOID, else `Selected Region` |
| GeoJsonLayer.HandleFeatureClick | src/components/map/GeoJsonLayer.tsx:28-83 | a selection is made exactly when callback and feature exist, with region id and next level; a popup exactly when a row matches with a truthy value |
| GeoJsonLayer.RenderAsWritten | src/components/map/GeoJsonLayer.tsx:23-111 | nothing renders without geography; otherwise the path options are the style of `{}`, which may throw |
| GeoJsonLayer.Render | src/components/map/GeoJsonLayer.tsx:23-111 | nothing renders without geography; otherwise the path options are the default style |
| GeoJsonLayer.RenderAgreesWhenNoThrow | src/components/map/GeoJsonLayer.tsx:104 | where the as-written render does not throw, it agrees with the corrected one |
| GeoJsonLayer.DrillDownLevelsDiffer | src/components/map/GeoJsonLayer.tsx:33-35 | the two drill-down rules differ exactly at county level (tract against zip) |
| GeoJsonLayer.StateIdPrefersFips | src/components/map/GeoJsonLayer.tsx:40 | a truthy STATEFP is the state-level region id |
| GeoJsonLayer.PopupTitleFallback | src/components/map/GeoJsonLayer.tsx:70-73 | with none of NAME, name, GEOID the title is `Selected Region`; a truthy NAME is the title |
| MapConstants.FindLevel | src/components/map/mapConstants.ts:11-17 | `find` on the geography levels: the entry with the id, or none when no entry has it |
| MapConstants.FindLevelIn | src/components/map/mapConstants.ts:11-17 | the same over any level table |
| MapConstants.LevelIds | src/components/map/mapConstants.ts:11-17 | the known levels are exactly state, county, tract, blockGroup and block |
| MapState.RegionViewLevels | src/hooks/useMapState.ts:32-47 | a region view exists exactly for the known levels and zip, and always zooms in past the US view |
| MapState.ZoomDeepens | src/hooks/useMapState.ts:32-47 | zoom deepens from state (6) to county and zip (8) to tract and block group (10) to block (12) |
| MapState.MapState.constructor | src/hooks/useMapState.ts:5-16 | the initial view is the US centre at zoom 4, the states service, tool `pan`, granularity `tract`, no area of interest |
| MapState.MapState.UpdateLayerService | src/hooks/useMapState.ts:19-25 | a known level selects its service; an unknown one changes nothing; nothing else changes |
| MapState.MapState.UpdateMapView | src/hooks/useMapState.ts:28-53 | no region resets to the US view; with a region the level (or the hook's level) picks centre and zoom, and an unknown level changes nothing |
| MapData.WhereClause | src/hooks/useMapData.tsx:29-40 | `STATE='<region>'` exactly when a region is selected below state level, else `1=1` |
| MapData.ParamValueOfPrimary | src/hooks/useMapData.tsx:29-40 | the request's `where` parameter is that clause |
| MapData.PrimaryQueryKeys | src/hooks/useMapData.tsx:29-42 | the request is `<service>/query` with parameters f=geojson, outFields=*, where, in that order |
| MapData.FallbackFor | src/hooks/useMapData.tsx:78-86 | county falls back to counties, tract and block group to tracts, every other level to states |
| MapData.MapDataLoader.StartLoad | src/hooks/useMapData.tsx:21-42 | loading starts, the error clears and the primary request is sent |
| MapData.MapDataLoader.PrimaryArrived | src/hooks/useMapData.tsx:48-75 | a usable answer (OK with features) is shown and loading ends; anything else raises the `Geographic data service unavailable` / `Using fallback data sources` toast and asks for the level's fallback file; the toast is raised exactly when the answer is not usable |
| MapData.MapDataLoader.FallbackArrived | src/hooks/useMapData.tsx:90-108 | a fallback body is shown unchecked; a failure records the error and shows an empty collection, leaving the loaded flag alone; loading ends |
| MapData.LoadOnce | src/hooks/useMapData.tsx:21-112 | one load always ends with geography shown and loading off, from the primary, the fallback, or empty with the error; the service-unavailable toast is raised exactly when the primary answer is not usable |
| Breadcrumb.Crumbs | src/components/map/GeographyBreadcrumb.tsx:15-47 | nothing without a region; otherwise `USA` first and one, three or two crumbs at state, zip or other levels; below state the second crumb shows and selects the id's first dash piece at state level; at zip the third shows and selects its second piece at county level |
| Breadcrumb.StateCrumbAtEveryLevel | src/components/map/GeographyBreadcrumb.tsx:26-36 | at every level below state, an id `state-...` gives a second crumb labelled with that state and selecting (that state, `state`) |
| Breadcrumb.NoDashIsState | src/components/map/GeographyBreadcrumb.tsx:26-36 | at every level below state, an id without a dash is its own state crumb |
| Breadcrumb.CrumbsRecoverParts | src/components/map/GeographyBreadcrumb.tsx:26-47 | for an id `state-county...` the zip-level crumbs select exactly that state and that county |
| Breadcrumb.NoDashNoCounty | src/components/map/GeographyBreadcrumb.tsx:37-47 | an id without a dash gives a county crumb that selects `undefined` |
| ArcGis.BuildArcGisQuery | src/lib/arcgisService.ts:11-24 | `<service>/query` with f=geojson, outFields=*, where (default `1=1`), resultRecordCount (default 1000) in that order |
| ArcGis.Ring | src/lib/arcgisService.ts:71 | one ring point per coordinate, holding its first two components |
| ArcGis.RingKeepsPlanarCoordinates | src/lib/arcgisService.ts:71 | the ring drops everything past longitude and latitude, and keeps planar coordinates unchanged |
| ArcGis.IntersectParams | src/lib/arcgisService.ts:34-45 | the intersect query asks for json, all fields, the geometry type and geometry given, in and out in WGS 84 |
| ArcGis.PointQuery | src/lib/arcgisService.ts:29-47 | the point query sends x = longitude, y = latitude, wkid 4326 |
| ArcGis.PolygonQuery | src/lib/arcgisService.ts:66-85 | the polygon query sends a single ring built from the coordinates |
| ArcGis.QueryResult | src/lib/arcgisService.ts:49-60 | a failure or non-OK answer gives `[]`; a body gives its features, or `[]` without them |
| ArcGis.ArcGisToGeoJson | src/lib/arcgisService.ts:104-113 | a FeatureCollection with one `Feature` per input, in order, geometry passed through and attributes as properties |
| ArcGis.ArcGisRoundTrip | src/lib/arcgisService.ts:104-113 | converting back recovers the input features exactly |
| GeocodingService.CacheKeyIgnoresCase | src/services/geocodingService.ts:30 | addresses whose components agree up to letter case share a cache key |
| GeocodingService.PresentParts | src/services/geocodingService.ts:61-66 | the one-line address joins only non-empty components |
| GeocodingService.BuildRequestSpec | src/services/geocodingService.ts:38-75 | about `BuildRequest`: parameters start with benchmark, vintage, format=json; a zip selects the address endpoint with street and zip; else city and state select it with street, city, state; else the one-line endpoint; no key is sent |
| GeocodingService.MapMatchesAt | src/services/geocodingService.ts:89-98 | one result per match, in order |
| GeocodingService.ResponseResultsSpec | src/services/geocodingService.ts:84-104 | each result has coordinates (x, y), score 100 with a street side and 90 without, input address or `''`, geographies or `{}`; no matches gives `[]` |
| GeocodingService.GeocodeStepSpec | src/services/geocodingService.ts:27-108 | about `GeocodeStep`: a cache hit returns the stored list with no request; a miss sends the built request; a failure becomes `Failed to geocode address: <message>` |
| GeocodingService.WrittenKeepsValid | src/services/geocodingService.ts:100-102 | only non-empty lists are ever cached |
| GeocodingService.SecondCallIsCached | src/services/geocodingService.ts:30-36 | after a call that cached a result, a call with the same address up to case is answered from the cache with the same list |
| GeocodingService.ChunkEnd | src/services/geocodingService.ts:117-121 | chunks are at most ten addresses and always advance |
| GeocodingService.ChunkSteps | src/services/geocodingService.ts:121-123 | every lookup of a chunk sees the cache as it was when the chunk started |
| GeocodingService.NoErrorAllOk | src/services/geocodingService.ts:123 | a chunk has no error exactly when all its lookups succeeded |
| GeocodingService.BatchResultsInOrder | src/services/geocodingService.ts:114-127 | a successful batch returns one list per address, result m being address m's lookup |
| GeocodingService.BatchSucceedsWithoutErrors | src/services/geocodingService.ts:114-127 | a batch whose lookups all succeed succeeds |
| GeocodingService.BatchKeepsCacheValid | src/services/geocodingService.ts:114-127 | a batch, successful or not, only ever caches non-empty lists |
| GeocodingService.BatchGeocodeInOrder | src/services/geocodingService.ts:114-127 | `batchGeocodeAddresses` output has one entry per address, in input order |
| GeocodingService.BatchGeocodeSucceeds | src/services/geocodingService.ts:114-132 | when every request gets an answer the batch does not fail |
| GeocodingService.BatchGeocodeKeepsValid | src/services/geocodingService.ts:114-132 | the cache stays free of empty lists |
| GeocodingService.Geocoder.GeocodeAddress | src/services/geocodingService.ts:27-108 | returns the lookup's result and request and writes the cache exactly when a request found matches |
| GeocodingService.Geocoder.GeocodeChunk | src/services/geocodingService.ts:121-124 | runs a chunk's lookups against the cache at chunk start and applies their writes in index order, returning the first error and the results |
| GeocodingService.Geocoder.RunBatch | src/services/geocodingService.ts:117-127 | walks the addresses in chunks of ten and stops at the first chunk with an error |
| GeocodingService.Geocoder.BatchGeocodeAddresses | src/services/geocodingService.ts:114-132 | result and new cache are those of the batch specification |
| SearchUtils.KnownLocationsNamed | src/components/map/utils/searchUtils.ts:74-102 | every gazetteer name is non-empty, made of lower-case letters and spaces only, and unchanged by lower-casing |
| SearchUtils.FirstIncluded | src/components/map/utils/searchUtils.ts:109-115 | pass 1 picks an entry whose name the lower-cased address contains |
| SearchUtils.FirstContaining | src/components/map/utils/searchUtils.ts:119-127 | pass 2 picks an entry whose name contains a word longer than three characters |
| SearchUtils.WordsAreWords | src/components/map/utils/searchUtils.ts:118 | the words are non-empty and hold no white space |
| SearchUtils.SimulateWith | src/components/map/utils/searchUtils.ts:73-139 | the two-pass loop with its breaks computes the gazetteer specification |
| SearchUtils.SimulateGeocoding | src/components/map/utils/searchUtils.ts:73-139 | `simulateGeocoding` over the built-in table |
| SearchUtils.SimulateShape | src/components/map/utils/searchUtils.ts:104-138 | always one approximate result; a match gives the entry's coordinates and capitalised name plus ` (approximate)`; no match gives the US centre and `Approximate location for: <address>` |
| SearchUtils.LastWordWins | src/components/map/utils/searchUtils.ts:117-129 | in pass 2 the last word with a hit decides |
| SearchUtils.ShortWordsNeverHit | src/components/map/utils/searchUtils.ts:120 | words of three characters or fewer never match |
| SearchUtils.ShadowedEntry | src/components/map/utils/searchUtils.ts:109-115 | an entry whose name extends an earlier entry's name can never win pass 1 |
| SearchUtils.FirstIncludedAtMost | src/components/map/utils/searchUtils.ts:109-115 | pass 1 finds the first included entry, at or before any included one |
| SearchUtils.NewYorkStateShadowed | src/components/map/utils/searchUtils.ts:74-115 | the `new york state` entry can never win pass 1 |
| SearchUtils.SecondEntryFirst | src/components/map/utils/searchUtils.ts:109-115 | with the first entry absent and the second present, pass 1 picks the second |
| SearchUtils.NewYorkWins | src/components/map/utils/searchUtils.ts:109-138 | an address naming New York but not Washington DC is placed at New York |
| SearchUtils.NewYorkStateExample | src/components/map/utils/searchUtils.ts:105 | "New York State" lower-cases to text that holds `new york` and not `washington dc` |
| SearchUtils.Matches | src/components/map/utils/searchUtils.ts:25-36 | matches are used only when present and non-empty |
| SearchUtils.PerformSearch | src/components/map/utils/searchUtils.ts:8-68 | always at least one result: the gazetteer fallback on any failure or no match, otherwise one result per match in order, each with the block query for its coordinates and the first block found |
| SearchBox.TrimAll | src/components/geocoding/SearchBoxGeocoder.tsx:27 | each part trimmed, same count |
| SearchBox.ParseShape | src/components/geocoding/SearchBoxGeocoder.tsx:27-43 | about `ParseOneLine`: the street is the trimmed text before the first comma; a city is set exactly when there is a comma; a zip only with a state; a state is one non-empty word |
| SearchBox.ParseFormat | src/components/geocoding/SearchBoxGeocoder.tsx:26-43 | about `ParseOneLine`: `street, city, ST zip` parses back into exactly those four components |
| SearchBox.PlaceholderExample | src/components/geocoding/SearchBoxGeocoder.tsx:72 | the placeholder `123 Main St, Baltimore, MD 21227` parses to its four parts |
| SearchBox.SearchBoxState.Submit | src/components/geocoding/SearchBoxGeocoder.tsx:17-45 | a blank query sends nothing and leaves loading alone; otherwise loading starts and the parsed components are sent |
| SearchBox.SearchBoxState.GeocodeReturned | src/components/geocoding/SearchBoxGeocoder.tsx:45-65 | an error becomes an error toast with its message; no results a no-match toast; results go to the callback when there is one; loading ends |
| AddressGeocoder.WithField | src/components/geocoding/AddressGeocoder.tsx:28-34 | an input change replaces only the named field |
| AddressGeocoder.SubmittedUsesAddressEndpoint | src/components/geocoding/AddressGeocoder.tsx:39-48 | a form that passes validation is always looked up on the structured-address endpoint, with its street |
| AddressGeocoder.AddressForm.constructor | src/components/geocoding/AddressGeocoder.tsx:16-26 | the form starts from the given address or blank, not loading, no results, no error |
| AddressGeocoder.AddressForm.InputChange | src/components/geocoding/AddressGeocoder.tsx:28-34 | typing changes that field only |
| AddressGeocoder.AddressForm.Submit | src/components/geocoding/AddressGeocoder.tsx:36-48 | an incomplete form shows the validation message and sends nothing; a complete one clears the error, starts loading and sends the address |
| AddressGeocoder.AddressForm.GeocodeReturned | src/components/geocoding/AddressGeocoder.tsx:48-66 | results replace the list; an empty list sets `No matching addresses found`; a non-empty one is delivered whole when there is a callback; an error keeps the list, shows its message on the error line and raises a `Geocoding Error` toast with it as description; only an error raises a toast; loading ends |
| AddressGeocoder.AddressForm.Clear | src/components/geocoding/AddressGeocoder.tsx:69-78 | blank fields, no results, no error, and the blank form cannot be submitted |
| AddressGeocoder.AddressForm.SelectResult | src/components/geocoding/AddressGeocoder.tsx:80-84 | the chosen result is delivered alone, only with a callback |
| Chat.FirstRuleAnswers | src/hooks/useChatWithData.tsx:41-57 | about `ReplyTo` (through `ReplyFrom`): the first rule whose keyword the lower-cased message holds gives the reply |
| Chat.NoRuleGeneral | src/hooks/useChatWithData.tsx:55-57 | with no rule applying the reply is the general one |
| Chat.ReplyIgnoresCase | src/hooks/useChatWithData.tsx:41 | the reply does not depend on letter case |
| Chat.IncomeFirst | src/hooks/useChatWithData.tsx:43-44 | a message mentioning income gets the income reply whatever else it mentions |
| Chat.ChatSession.constructor | src/hooks/useChatWithData.tsx:12-19 | the conversation opens with the greeting, id `1`, not loading |
| Chat.ChatSession.SendMessage | src/hooks/useChatWithData.tsx:21-32 | a blank message changes nothing; any other is appended verbatim under the time as id, and loading starts; the greeting stays first |
| Chat.ChatSession.Respond | src/hooks/useChatWithData.tsx:38-79 | exactly one reply, chosen by the rules, is appended under the time plus one, and loading ends |

## Left out

- Rendering, JSX, Leaflet widgets, console logging and the popup and tooltip HTML are not modelled. The click, tooltip and popup decisions are modelled; the markup is not. Every toast the core raises is modelled by its title and description: the search box's and the address form's geocoding toasts, and the map data's service-unavailable toast. Their `variant` styling is not modelled.
- The address form's markup constraints are not modelled: `required` on the street input, `maxLength` 2 on the state and 10 on the zip (src/components/geocoding/AddressGeocoder.tsx:103,127,140). Because of `required`, the browser refuses an empty-street submit before the handler runs. AddressGeocoder.AddressForm.Submit models the handler alone, so its validation branch also covers the empty street, which the browser stops first.
- `formatValue` (src/lib/census.ts:108-129) and the popup's `toLocaleString`/`toFixed`. These are locale formatting, so the model keeps the raw value in tooltips and popups.
- `Number()` is modelled on text as follows: surrounding white space is ignored, blank text is 0, and an optional sign followed by decimal digits is that integer. Decimals, exponents and hexadecimal text are not modelled (they read as NaN), and numbers are integers apart from coordinates and percentages.
- `toLowerCase` and `toUpperCase` map ASCII letters only. Other Unicode case mappings are not modelled.
- A `NAME` that is a number (not a string) is treated as never containing anything; the source would throw on `.includes`.
- Percent-encoding of URLs is not modelled. Parameters are ordered key-value pairs, and a request is the endpoint plus those pairs.
- Timeouts (the 10-second aborts) and network errors all become the `Failed` outcome. The 1.5-second chat delay is the gap between `SendMessage` and `Respond`.
- `Date.now` becomes a parameter. SearchUtils.PerformSearch: the search result's `id` is not modelled. It is the GEOID of the match's first 2020 Census block when the match has one, and `String(Math.random())` otherwise. The model keeps the other fields of each result but neither source of the id.
- Malformed payloads, such as a match without `coordinates` or `addressComponents`, are not modelled. Payloads are the typed records the service documents.
- `ARCGIS_SERVICES` and `FALLBACK_GEOJSON` are not defined in src/components/map/mapConstants.ts. The block service URL and the three fallback files are therefore parameters and an enumeration.
- GeocodingService.Geocoder.GeocodeChunk: `Promise.all` is made deterministic in two ways.
  - The chunk's error is that of its lowest-index failing lookup. The source rejects with the first lookup to fail in time, so when two lookups of a chunk fail, the message reported may differ.
  - The chunk's cache writes are applied in index order. In the source each lookup writes when its answer arrives. So when two addresses of one chunk share a cache key, the last to arrive wins, in successful chunks too.
  - A failed chunk's writes are all applied before the batch fails. In the source, lookups still in flight may write later.
- GeocodingService.Geocoder.RunBatch: inherits both choices of GeocodeChunk. The batch's error is the lowest-index failure of the first failing chunk, and writes follow index order rather than arrival order.
- GeocodingService.Geocoder.BatchGeocodeAddresses: inherits the same index-order error choice and write order. The results of a successful batch do not depend on either choice.
- The raw setters that useMapState.ts returns (`setMapCenter`, `setZoomLevel`, ...) and the `leafletMap` field are not modelled. They are plain assignments with no logic.
- GeoJsonLayer's mouse-over and mouse-out handlers are not modelled. They set a fixed highlight style and re-apply `getRegionStyle`, which is modelled.
- `useChatWithData`'s `catch` branch (src/hooks/useChatWithData.tsx:66-76) is not modelled. Nothing in its `try` can throw, so the branch is unreachable; the `data` argument is unused and so not modelled.
- SearchUtils.Words drops the empty pieces that `split(/\s+/)` leaves at either end. They are too short to match anything, so dropping them changes nothing.
- The search box's `isLoading` is set only after the blank check, as the source does. Concurrent submissions are not modelled.
- ComparisonTool, MapSearch, SearchBar, useCensusData and the other components are callers of this core, so they are not part of this model.

## Findings

| source | as written | input that shows it | evidently intended | confidence | as-written member | corrected member |
|---|---|---|---|---|---|---|
| src/components/map/GeoJsonLayer.tsx:104 | `pathOptions={regionStyleFunction({})}` calls the style function on an object with no `properties`; once a row has a truthy NAME at state, county or zip level, the match reads `feature.properties.name` on `undefined` and throws | data `[{NAME: "California"}]`, a variable, level `state` | the layer's default path style: the base colour without a selection, the no-data colour with one | not executed | MapStyles.EmptyObjectStyleAsWritten, MapStyles.EmptyObjectStyleThrows, GeoJsonLayer.RenderAsWritten | MapStyles.DefaultStyle, GeoJsonLayer.Render |
