/** Place search (`performSearch`, `simulateGeocoding`): a one-line query to the Census
    geocoder, each match enriched with the census block under it; when the request fails or
    finds nothing, a single approximate result from a small built-in gazetteer. */
module SearchUtils {
  import opened Wrappers
  import opened Strings
  import opened Js
  import opened Urls
  import MapConstants
  import GeocodingService
  import ArcGis

  /** A gazetteer entry: a lower-case name and its [longitude, latitude]. */
  datatype Place = Place(name: string, lon: real, lat: real)

  /** The gazetteer's entries. */
  const WASHINGTON_DC := Place("washington dc", -77.0369, 38.9072)
  const NEW_YORK := Place("new york", -74.0060, 40.7128)
  const LOS_ANGELES := Place("los angeles", -118.2437, 34.0522)
  const CHICAGO := Place("chicago", -87.6298, 41.8781)
  const HOUSTON := Place("houston", -95.3698, 29.7604)
  const BALTIMORE := Place("baltimore", -76.6122, 39.2904)
  const PHILADELPHIA := Place("philadelphia", -75.1652, 39.9526)
  const BOSTON := Place("boston", -71.0589, 42.3601)
  const DALLAS := Place("dallas", -96.7970, 32.7767)
  const SAN_FRANCISCO := Place("san francisco", -122.4194, 37.7749)
  const ATLANTA := Place("atlanta", -84.3880, 33.7490)
  const MIAMI := Place("miami", -80.1918, 25.7617)
  const SEATTLE := Place("seattle", -122.3321, 47.6062)
  const DENVER := Place("denver", -104.9903, 39.7392)
  const PHOENIX := Place("phoenix", -112.0740, 33.4484)
  const PORTLAND := Place("portland", -122.6765, 45.5231)
  const PITTSBURGH := Place("pittsburgh", -79.9959, 40.4406)
  const DETROIT := Place("detroit", -83.0458, 42.3314)
  const NASHVILLE := Place("nashville", -86.7816, 36.1627)
  const AUSTIN := Place("austin", -97.7431, 30.2672)
  const MARYLAND := Place("maryland", -76.6413, 39.0458)
  const VIRGINIA := Place("virginia", -78.6569, 37.4316)
  const CALIFORNIA := Place("california", -119.4179, 36.7783)
  const FLORIDA := Place("florida", -81.5158, 27.6648)
  const TEXAS := Place("texas", -99.9018, 31.9686)
  const NEW_YORK_STATE := Place("new york state", -75.4653, 42.6526)

  /** The gazetteer, in the order the fallback tries its entries. */
  const KNOWN_LOCATIONS: seq<Place> := [
    WASHINGTON_DC, NEW_YORK, LOS_ANGELES, CHICAGO, HOUSTON, BALTIMORE,
    PHILADELPHIA, BOSTON, DALLAS, SAN_FRANCISCO, ATLANTA, MIAMI,
    SEATTLE, DENVER, PHOENIX, PORTLAND, PITTSBURGH, DETROIT,
    NASHVILLE, AUSTIN, MARYLAND, VIRGINIA, CALIFORNIA, FLORIDA,
    TEXAS, NEW_YORK_STATE
  ]

  /** The centre of the contiguous United States, [longitude, latitude]. */
  const US_CENTER: (real, real) := (-98.5795, 39.8283)

  /** Every entry has a name, so a matched place is never the empty string. */
  predicate Named(places: seq<Place>) {
    forall j :: 0 <= j < |places| ==> |places[j].name| > 0
  }

  /** Every entry's name is already in lower case, as the lower-cased address it is
      looked up in. */
  predicate Lowered(places: seq<Place>) {
    forall j :: 0 <= j < |places| ==> ToLower(places[j].name) == places[j].name
  }

  /** Every name is non-empty and written in lower-case letters and spaces only, so
      lower-casing leaves it unchanged. */
  lemma KnownLocationsNamed()
    ensures Named(KNOWN_LOCATIONS)
    ensures forall j :: 0 <= j < |KNOWN_LOCATIONS| ==> LowerText(KNOWN_LOCATIONS[j].name)
    ensures Lowered(KNOWN_LOCATIONS)
  {
    var ps := KNOWN_LOCATIONS;
    LowerNames0(); LowerNames1(); LowerNames2(); LowerNames3();
    forall j | 0 <= j < |ps| ensures ToLower(ps[j].name) == ps[j].name {
      LowerTextFixed(ps[j].name);
    }
  }

  /** The gazetteer's names, a few entries at a time, are lower-case text. */
  lemma LowerNames0()
    ensures LowerText(WASHINGTON_DC.name)
    ensures LowerText(NEW_YORK.name)
    ensures LowerText(LOS_ANGELES.name)
    ensures LowerText(CHICAGO.name)
    ensures LowerText(HOUSTON.name)
    ensures LowerText(BALTIMORE.name)
    ensures LowerText(PHILADELPHIA.name)
  {
  }

  lemma LowerNames1()
    ensures LowerText(BOSTON.name)
    ensures LowerText(DALLAS.name)
    ensures LowerText(SAN_FRANCISCO.name)
    ensures LowerText(ATLANTA.name)
    ensures LowerText(MIAMI.name)
    ensures LowerText(SEATTLE.name)
    ensures LowerText(DENVER.name)
  {
  }

  lemma LowerNames2()
    ensures LowerText(PHOENIX.name)
    ensures LowerText(PORTLAND.name)
    ensures LowerText(PITTSBURGH.name)
    ensures LowerText(DETROIT.name)
    ensures LowerText(NASHVILLE.name)
    ensures LowerText(AUSTIN.name)
  {
  }

  lemma LowerNames3()
    ensures LowerText(MARYLAND.name)
    ensures LowerText(VIRGINIA.name)
    ensures LowerText(CALIFORNIA.name)
    ensures LowerText(FLORIDA.name)
    ensures LowerText(TEXAS.name)
    ensures LowerText(NEW_YORK_STATE.name)
  {
  }

  /** The first entry, from `from` on, whose name the (lower-cased) address contains. */
  function FirstIncluded(places: seq<Place>, lowerAddress: string, from: nat): (r: Option<nat>)
    ensures r.Some? ==> from <= r.value < |places| && Contains(lowerAddress, places[r.value].name)
    decreases |places| - from
  {
    if from >= |places| then None
    else if Contains(lowerAddress, places[from].name) then Some(from)
    else FirstIncluded(places, lowerAddress, from + 1)
  }

  /** The first entry, from `from` on, whose name contains the word, for a word of more
      than three characters. */
  function FirstContaining(places: seq<Place>, word: string, from: nat): (r: Option<nat>)
    ensures r.Some? ==> from <= r.value < |places| && Contains(places[r.value].name, word) && |word| > 3
    decreases |places| - from
  {
    if from >= |places| then None
    else if Contains(places[from].name, word) && |word| > 3 then Some(from)
    else FirstContaining(places, word, from + 1)
  }

  /** The entry the word-by-word pass ends on: each word with a hit overrides the earlier
      ones, so the last such word decides. */
  function LastHit(places: seq<Place>, words: seq<string>): (r: Option<nat>)
    ensures r.Some? ==> r.value < |places|
    decreases |words|
  {
    if words == [] then None
    else
      match FirstContaining(places, words[|words| - 1], 0)
      case Some(j) => Some(j)
      case None => LastHit(places, words[..|words| - 1])
  }

  /** The pieces of `s` between white-space characters (empty pieces included). */
  function SpacePieces(s: string): (r: seq<string>)
    ensures |r| >= 1
    decreases |s|
  {
    if s == [] then [""]
    else
      var rest := SpacePieces(s[1..]);
      if IsSpace(s[0]) then [""] + rest else [[s[0]] + rest[0]] + rest[1..]
  }

  /** `s.split(/\s+/)` without its empty pieces: the maximal runs of non-space characters.
      The empty pieces the regular expression leaves at either end are too short to match
      anything, so dropping them changes nothing. */
  function Words(s: string): seq<string> {
    NonEmpty(SpacePieces(s))
  }

  lemma {:induction false} PiecesHaveNoSpace(s: string)
    ensures forall k, c :: 0 <= k < |SpacePieces(s)| && c in SpacePieces(s)[k] ==> !IsSpace(c)
    decreases |s|
  {
    if s != [] {
      PiecesHaveNoSpace(s[1..]);
      var rest := SpacePieces(s[1..]);
      if !IsSpace(s[0]) {
        forall k, c | 0 <= k < |SpacePieces(s)| && c in SpacePieces(s)[k] ensures !IsSpace(c) {
          if k == 0 {
            assert c == s[0] || c in rest[0];
          } else {
            assert SpacePieces(s)[k] == rest[k];
          }
        }
      }
    }
  }

  /** The words are non-empty and hold no white space. */
  lemma WordsAreWords(s: string)
    ensures forall k :: 0 <= k < |Words(s)| ==> Words(s)[k] != "" && forall c :: c in Words(s)[k] ==> !IsSpace(c)
  {
    PiecesHaveNoSpace(s);
    NonEmptyKeeps(SpacePieces(s));
    forall k | 0 <= k < |Words(s)| ensures forall c :: c in Words(s)[k] ==> !IsSpace(c) {
      var w := Words(s)[k];
      assert w in SpacePieces(s);
      var m :| 0 <= m < |SpacePieces(s)| && SpacePieces(s)[m] == w;
    }
  }

  /** The entry the fallback picks for a lower-cased address: the first entry the address
      contains, and only when there is none, the word-by-word pass. */
  function MatchIndex(places: seq<Place>, lowerAddress: string): (r: Option<nat>)
    ensures r.Some? ==> r.value < |places|
  {
    match FirstIncluded(places, lowerAddress, 0)
    case Some(j) => Some(j)
    case None => LastHit(places, Words(lowerAddress))
  }

  /** `charAt(0).toUpperCase() + slice(1)`. */
  function Capitalize(s: string): (r: string)
    ensures |r| == |s|
  {
    if s == [] then [] else [UpperChar(s[0])] + s[1..]
  }

  /** The fallback's state after its passes: the matched place's display name (empty for
      none) and the coordinates. */
  function Outcome(places: seq<Place>, index: Option<nat>): (string, (real, real)) {
    match index
    case Some(j) =>
      if j < |places| then (Capitalize(places[j].name), (places[j].lon, places[j].lat)) else ("", US_CENTER)
    case None => ("", US_CENTER)
  }

  /** The fallback result; its id (from the clock) is not modelled. */
  datatype FallbackResult = FallbackResult(placeName: string, text: string, center: (real, real), matchType: string)

  const FALLBACK_TEXT := "Using local fallback geocoding"

  /** What the fallback returns for an address, with a given table. */
  function SimulateIn(places: seq<Place>, address: string): FallbackResult {
    var (matchedPlace, coordinates) := Outcome(places, MatchIndex(places, ToLower(address)));
    FallbackResult(if matchedPlace != "" then matchedPlace + " (approximate)" else "Approximate location for: " + address,
                   FALLBACK_TEXT, coordinates, "approximate")
  }

  /** What `simulateGeocoding(address)` returns. */
  function SimulateSpec(address: string): FallbackResult {
    SimulateIn(KNOWN_LOCATIONS, address)
  }

  /** The two passes over a table of named places, as loops. */
  method SimulateWith(address: string, knownLocations: seq<Place>) returns (r: FallbackResult)
    requires Named(knownLocations)
    ensures r == SimulateIn(knownLocations, address)
  {
    var lowerAddress := ToLower(address);
    var coordinates := US_CENTER;
    var matchedPlace := "";
    ghost var found: Option<nat> := None;
    var i := 0;
    while i < |knownLocations|
      invariant 0 <= i <= |knownLocations|
      invariant FirstIncluded(knownLocations, lowerAddress, i) == FirstIncluded(knownLocations, lowerAddress, 0)
      invariant found == None && matchedPlace == "" && coordinates == US_CENTER
    {
      var place := knownLocations[i];
      if Contains(lowerAddress, place.name) {
        coordinates := (place.lon, place.lat);
        matchedPlace := Capitalize(place.name);
        found := Some(i);
        break;
      }
      i := i + 1;
    }
    assert found == FirstIncluded(knownLocations, lowerAddress, 0);
    assert (matchedPlace, coordinates) == Outcome(knownLocations, found);

    if matchedPlace == "" {
      var words := Words(lowerAddress);
      var w := 0;
      while w < |words|
        invariant 0 <= w <= |words|
        invariant (matchedPlace, coordinates) == Outcome(knownLocations, LastHit(knownLocations, words[..w]))
      {
        var word := words[w];
        ghost var hit: Option<nat> := None;
        var j := 0;
        while j < |knownLocations|
          invariant 0 <= j <= |knownLocations|
          invariant FirstContaining(knownLocations, word, j) == FirstContaining(knownLocations, word, 0)
          invariant hit == None && (matchedPlace, coordinates) == Outcome(knownLocations, LastHit(knownLocations, words[..w]))
        {
          var place := knownLocations[j];
          if Contains(place.name, word) && |word| > 3 {
            coordinates := (place.lon, place.lat);
            matchedPlace := Capitalize(place.name);
            hit := Some(j);
            break;
          }
          j := j + 1;
        }
        assert hit == FirstContaining(knownLocations, word, 0);
        assert words[..w + 1][..w] == words[..w];
        assert LastHit(knownLocations, words[..w + 1]) == if hit.Some? then hit else LastHit(knownLocations, words[..w]);
        w := w + 1;
      }
      assert words[..w] == words;
    }
    assert (matchedPlace, coordinates) == Outcome(knownLocations, MatchIndex(knownLocations, lowerAddress));
    r := FallbackResult(if matchedPlace != "" then matchedPlace + " (approximate)" else "Approximate location for: " + address,
                        FALLBACK_TEXT, coordinates, "approximate");
  }

  /** `simulateGeocoding(address)`, over the built-in gazetteer. */
  method SimulateGeocoding(address: string) returns (r: FallbackResult)
    ensures r == SimulateSpec(address)
  {
    KnownLocationsNamed();
    r := SimulateWith(address, KNOWN_LOCATIONS);
  }

  /** The fallback always answers approximately: with the matched entry's coordinates and
      name, or with the centre of the country and the address itself when nothing
      matches. */
  lemma SimulateShape(places: seq<Place>, address: string)
    requires Named(places)
    ensures SimulateIn(places, address).text == FALLBACK_TEXT && SimulateIn(places, address).matchType == "approximate"
    ensures MatchIndex(places, ToLower(address)).Some? ==>
      var p := places[MatchIndex(places, ToLower(address)).value];
      SimulateIn(places, address).center == (p.lon, p.lat) &&
      SimulateIn(places, address).placeName == Capitalize(p.name) + " (approximate)"
    ensures MatchIndex(places, ToLower(address)).None? ==>
      SimulateIn(places, address).center == US_CENTER &&
      SimulateIn(places, address).placeName == "Approximate location for: " + address
  {
  }

  /** The word-by-word pass picks, for the last word that has a hit, that word's first hit. */
  lemma {:induction false} LastWordWins(places: seq<Place>, words: seq<string>, k: nat)
    requires k < |words| && FirstContaining(places, words[k], 0).Some?
    requires forall m :: k < m < |words| ==> FirstContaining(places, words[m], 0).None?
    ensures LastHit(places, words) == FirstContaining(places, words[k], 0)
    decreases |words|
  {
    var n := |words| - 1;
    if k < n {
      var init := words[..n];
      assert init[k] == words[k];
      forall m | k < m < n ensures FirstContaining(places, init[m], 0).None? {
        assert init[m] == words[m];
      }
      LastWordWins(places, init, k);
    }
  }

  /** Words of three characters or fewer never hit. */
  lemma {:induction false} ShortWordsNeverHit(places: seq<Place>, word: string, from: nat)
    requires |word| <= 3
    ensures FirstContaining(places, word, from) == None
    decreases |places| - from
  {
    if from < |places| {
      ShortWordsNeverHit(places, word, from + 1);
    }
  }

  /** A needle that is found is found with any prefix of it. */
  lemma {:induction false} ContainsPrefixNeedle(hay: string, needle: string, p: string)
    requires Contains(hay, needle) && IsPrefix(p, needle)
    ensures Contains(hay, p)
    decreases |hay|
  {
    if IsPrefix(needle, hay) {
      assert hay[..|p|] == needle[..|p|];
    } else {
      ContainsPrefixNeedle(hay[1..], needle, p);
    }
  }

  /** An entry whose name extends an earlier entry's name is never picked by the first
      pass. */
  lemma ShadowedEntry(places: seq<Place>, lowerAddress: string, i: nat, j: nat)
    requires i < j < |places| && IsPrefix(places[i].name, places[j].name)
    ensures FirstIncluded(places, lowerAddress, 0) != Some(j)
  {
    if Contains(lowerAddress, places[j].name) {
      ContainsPrefixNeedle(lowerAddress, places[j].name, places[i].name);
      FirstIncludedAtMost(places, lowerAddress, 0, i);
    }
  }

  lemma {:induction false} FirstIncludedAtMost(places: seq<Place>, lowerAddress: string, from: nat, i: nat)
    requires from <= i < |places| && Contains(lowerAddress, places[i].name)
    ensures FirstIncluded(places, lowerAddress, from).Some? && FirstIncluded(places, lowerAddress, from).value <= i
    decreases i - from
  {
    if from < i && !Contains(lowerAddress, places[from].name) {
      FirstIncludedAtMost(places, lowerAddress, from + 1, i);
    }
  }

  /** In the gazetteer, "new york state" is shadowed by "new york": the first pass never
      picks it. */
  lemma NewYorkStateShadowed(lowerAddress: string)
    ensures FirstIncluded(KNOWN_LOCATIONS, lowerAddress, 0) != Some(25)
  {
    assert KNOWN_LOCATIONS[1] == NEW_YORK && KNOWN_LOCATIONS[25] == NEW_YORK_STATE;
    assert NEW_YORK_STATE.name == NEW_YORK.name + " state";
    ShadowedEntry(KNOWN_LOCATIONS, lowerAddress, 1, 25);
  }

  /** Every character of a found needle occurs in the haystack. */
  lemma {:induction false} ContainsChars(hay: string, needle: string, k: nat)
    requires k < |needle| && Contains(hay, needle)
    ensures needle[k] in hay
    decreases |hay|
  {
    if IsPrefix(needle, hay) {
      assert hay[k] == needle[k];
    } else {
      ContainsChars(hay[1..], needle, k);
      assert needle[k] in hay[1..];
    }
  }

  lemma SecondEntryFirst(places: seq<Place>, hay: string)
    requires |places| >= 2 && !Contains(hay, places[0].name) && Contains(hay, places[1].name)
    ensures FirstIncluded(places, hay, 0) == Some(1)
  {
  }

  /** Any address that mentions "new york" (and not "washington dc") lands on New York
      City, whatever else it says: "Albany, New York State" included. */
  lemma NewYorkWins(address: string)
    requires Contains(ToLower(address), NEW_YORK.name) && !Contains(ToLower(address), WASHINGTON_DC.name)
    ensures SimulateSpec(address).center == (NEW_YORK.lon, NEW_YORK.lat)
    ensures SimulateSpec(address).placeName == Capitalize(NEW_YORK.name) + " (approximate)"
  {
    assert KNOWN_LOCATIONS[0] == WASHINGTON_DC && KNOWN_LOCATIONS[1] == NEW_YORK;
    SecondEntryFirst(KNOWN_LOCATIONS, ToLower(address));
    KnownLocationsNamed();
    SimulateShape(KNOWN_LOCATIONS, address);
  }

  /** "New York State" is such an address. */
  lemma NewYorkStateExample()
    ensures Contains(ToLower("New York State"), NEW_YORK.name)
    ensures !Contains(ToLower("New York State"), WASHINGTON_DC.name)
  {
    var lower := ToLower("New York State");
    assert lower == "new york state";
    assert IsPrefix(NEW_YORK.name, lower);
    if Contains(lower, WASHINGTON_DC.name) {
      ContainsChars(lower, WASHINGTON_DC.name, 4);
    }
  }

  /** A geocoder match turned into a search result. */
  datatype SearchResult<F> =
    | Located(placeName: Value, text: string, center: (real, real), matchType: Value, blockInfo: Option<F>)
    | Approximate(fallback: FallbackResult)

  /** The search request: the one-line endpoint with the query, benchmark, vintage, JSON
      format and the key, which the configuration leaves undefined. */
  function SearchRequest(searchQuery: string): Url<string> {
    Url(MapConstants.ONELINE_ADDRESS_ENDPOINT,
        [("address", searchQuery), ("benchmark", MapConstants.GEOCODER_BENCHMARK), ("vintage", MapConstants.GEOCODER_VINTAGE),
         ("format", "json"), ("key", if MapConstants.GEOCODER_KEY.Some? then MapConstants.GEOCODER_KEY.GetOr("") else "undefined")])
  }

  /** The matches of a response, or `None` when the search falls back: a failed request,
      a non-OK status, no `result`, no list of matches or an empty one. */
  function Matches(response: Response<GeocodingService.GeocoderBody>): (r: Option<seq<GeocodingService.AddressMatch>>)
    ensures r.Some? ==> |r.value| > 0
  {
    match response
    case Received(body) =>
      if body.result.Some? && body.result.value.addressMatches.Some? && |body.result.value.addressMatches.value| > 0
      then Some(body.result.value.addressMatches.value)
      else None
    case _ => None
  }

  /** One match as a result: its address, "city, state" (each `''` when missing), its
      [x, y], its TIGER/Line side or "exact", and the first block feature found under it. */
  function LocatedResult<F>(m: GeocodingService.AddressMatch, blocks: seq<F>): SearchResult<F> {
    Located(m.matchedAddress, ToText(Or(m.city, Str(""))) + ", " + ToText(Or(m.state, Str(""))), (m.x, m.y),
            Or(m.side, Str("exact")), if |blocks| > 0 then Some(blocks[0]) else None)
  }

  /** `performSearch(searchQuery)`; `response` is what the search request gets and
      `blocks(k)` what the block query for match k gets (a failed block query gives no
      block). */
  method PerformSearch<F>(searchQuery: string, response: Response<GeocodingService.GeocoderBody>,
                          censusBlocksService: string, blocks: nat -> Response<Option<seq<F>>>)
    returns (request: Url<string>, blockRequests: seq<Url<ArcGis.QueryValue>>, results: seq<SearchResult<F>>)
    ensures request == SearchRequest(searchQuery)
    ensures Matches(response).None? ==> blockRequests == [] && results == [Approximate(SimulateSpec(searchQuery))]
    ensures Matches(response).Some? ==>
      var ms := Matches(response).value;
      |blockRequests| == |ms| == |results| &&
      forall k :: 0 <= k < |ms| ==>
        blockRequests[k] == ArcGis.PointQuery(ms[k].x, ms[k].y, censusBlocksService) &&
        results[k] == LocatedResult(ms[k], ArcGis.QueryResult(blocks(k)))
  {
    request := SearchRequest(searchQuery);
    var matches := Matches(response);
    if matches.None? {
      var fallback := SimulateGeocoding(searchQuery);
      blockRequests, results := [], [Approximate(fallback)];
    } else {
      var ms := matches.value;
      blockRequests := seq(|ms|, k requires 0 <= k < |ms| => ArcGis.PointQuery(ms[k].x, ms[k].y, censusBlocksService));
      results := seq(|ms|, k requires 0 <= k < |ms| => LocatedResult(ms[k], ArcGis.QueryResult(blocks(k))));
    }
  }
}
