/** The Census geocoder client (`geocodeAddress`, `batchGeocodeAddresses`): a request built
    from whichever address components are present, the response's matches turned into
    results, and a module-wide cache keyed by the lower-cased address that only ever holds
    non-empty result lists. */
module GeocodingService {
  import opened Wrappers
  import opened Strings
  import opened Js
  import opened Urls
  import MapConstants

  /** An address; `None` is an omitted component. */
  datatype AddressComponents = AddressComponents(street: string, city: Option<string>, state: Option<string>, zip: Option<string>)

  /** One address match of a geocoder response; fields the client reads through `?.` may be
      `undefined`. */
  datatype AddressMatch = AddressMatch(matchedAddress: Value, x: real, y: real, side: Value, tigerLineId: Value,
                                       city: Value, state: Value, geographies: Option<Record>)
  /** The response's `result`: the echoed input address and the matches (`None` when they
      are missing or not a list). */
  datatype GeocoderResult = GeocoderResult(inputAddress: Value, addressMatches: Option<seq<AddressMatch>>)
  datatype GeocoderBody = GeocoderBody(result: Option<GeocoderResult>)

  /** A geocoded location; coordinates are [longitude, latitude]. */
  datatype GeocodeResult = GeocodeResult(inputAddress: Value, matchedAddress: Value, coordinates: (real, real),
                                         matchScore: int, tigerLineId: Value, side: Value, geographies: Record)

  type Cache = map<string, seq<GeocodeResult>>

  /** A component is used when it is present and not empty. */
  predicate Present(o: Option<string>) {
    o.Some? && o.value != ""
  }

  /** The cache key: the four components joined by `|`, an omitted one as `''`, in lower
      case. */
  function CacheKey(address: AddressComponents): string {
    ToLower(address.street + "|" + address.city.GetOr("") + "|" + address.state.GetOr("") + "|" + address.zip.GetOr(""))
  }

  /** Two addresses whose components agree up to letter case share a cache entry. */
  lemma CacheKeyIgnoresCase(a: AddressComponents, b: AddressComponents)
    requires ToLower(a.street) == ToLower(b.street)
    requires ToLower(a.city.GetOr("")) == ToLower(b.city.GetOr(""))
    requires ToLower(a.state.GetOr("")) == ToLower(b.state.GetOr(""))
    requires ToLower(a.zip.GetOr("")) == ToLower(b.zip.GetOr(""))
    ensures CacheKey(a) == CacheKey(b)
  {
    var sep := "|";
    ToLowerAppend(a.street, sep);
    ToLowerAppend(a.street + sep, a.city.GetOr(""));
    ToLowerAppend(a.street + sep + a.city.GetOr(""), sep);
    ToLowerAppend(a.street + sep + a.city.GetOr("") + sep, a.state.GetOr(""));
    ToLowerAppend(a.street + sep + a.city.GetOr("") + sep + a.state.GetOr(""), sep);
    ToLowerAppend(a.street + sep + a.city.GetOr("") + sep + a.state.GetOr("") + sep, a.zip.GetOr(""));
    ToLowerAppend(b.street, sep);
    ToLowerAppend(b.street + sep, b.city.GetOr(""));
    ToLowerAppend(b.street + sep + b.city.GetOr(""), sep);
    ToLowerAppend(b.street + sep + b.city.GetOr("") + sep, b.state.GetOr(""));
    ToLowerAppend(b.street + sep + b.city.GetOr("") + sep + b.state.GetOr(""), sep);
    ToLowerAppend(b.street + sep + b.city.GetOr("") + sep + b.state.GetOr("") + sep, b.zip.GetOr(""));
  }

  /** The present components among street, city, state and zip, in that order. */
  function PresentParts(address: AddressComponents): (r: seq<string>)
    ensures forall i :: 0 <= i < |r| ==> r[i] != ""
  {
    (if address.street != "" then [address.street] else []) +
    (if Present(address.city) then [address.city.value] else []) +
    (if Present(address.state) then [address.state.value] else []) +
    (if Present(address.zip) then [address.zip.value] else [])
  }

  /** The parameters every request starts with. */
  const BASE_PARAMS: seq<(string, string)> :=
    [("benchmark", MapConstants.GEOCODER_BENCHMARK), ("vintage", MapConstants.GEOCODER_VINTAGE), ("format", "json")]

  /** The request for an address: with a zip, the address endpoint with street and zip;
      else with city and state, the address endpoint with street, city and state; else the
      one-line endpoint with the present components joined by spaces. The key parameter is
      appended only when one is configured. */
  function BuildRequest(address: AddressComponents): Url<string> {
    var (endpoint, extra) :=
      if Present(address.zip) then
        (MapConstants.ADDRESS_ENDPOINT, [("street", address.street), ("zip", address.zip.value)])
      else if Present(address.city) && Present(address.state) then
        (MapConstants.ADDRESS_ENDPOINT, [("street", address.street), ("city", address.city.value), ("state", address.state.value)])
      else
        (MapConstants.ONELINE_ADDRESS_ENDPOINT, [("address", Join(PresentParts(address), " "))]);
    var keyParam := if MapConstants.GEOCODER_KEY.Some? then [("key", MapConstants.GEOCODER_KEY.GetOr(""))] else [];
    Url(endpoint, BASE_PARAMS + extra + keyParam)
  }

  lemma BuildRequestSpec(address: AddressComponents)
    ensures |BuildRequest(address).params| >= 3
    ensures BuildRequest(address).params[..3] == BASE_PARAMS
    ensures Present(address.zip) ==>
      BuildRequest(address).base == MapConstants.ADDRESS_ENDPOINT &&
      BuildRequest(address).params[3..] == [("street", address.street), ("zip", address.zip.value)]
    ensures !Present(address.zip) && Present(address.city) && Present(address.state) ==>
      BuildRequest(address).base == MapConstants.ADDRESS_ENDPOINT &&
      BuildRequest(address).params[3..] == [("street", address.street), ("city", address.city.value), ("state", address.state.value)]
    ensures !Present(address.zip) && !(Present(address.city) && Present(address.state)) ==>
      BuildRequest(address).base == MapConstants.ONELINE_ADDRESS_ENDPOINT &&
      BuildRequest(address).params[3..] == [("address", Join(PresentParts(address), " "))]
    ensures ParamValue(BuildRequest(address).params, "key") == None
  {
    var params := BuildRequest(address).params;
    assert forall i :: 0 <= i < |params| ==> params[i].0 != "key";
    ParamValueSpec(params, "key");
  }

  /** A match as a result. */
  function ToGeocodeResult(inputAddress: Value, m: AddressMatch): GeocodeResult {
    GeocodeResult(Or(inputAddress, Str("")), m.matchedAddress, (m.x, m.y), if Truthy(m.side) then 100 else 90,
                  m.tigerLineId, m.side, m.geographies.GetOr(map[]))
  }

  /** `addressMatches.map(...)`. */
  function MapMatches(inputAddress: Value, ms: seq<AddressMatch>): seq<GeocodeResult>
    decreases |ms|
  {
    if ms == [] then [] else [ToGeocodeResult(inputAddress, ms[0])] + MapMatches(inputAddress, ms[1..])
  }

  lemma {:induction false} MapMatchesAt(inputAddress: Value, ms: seq<AddressMatch>)
    ensures |MapMatches(inputAddress, ms)| == |ms|
    ensures forall i :: 0 <= i < |ms| ==> MapMatches(inputAddress, ms)[i] == ToGeocodeResult(inputAddress, ms[i])
    decreases |ms|
  {
    if ms != [] {
      MapMatchesAt(inputAddress, ms[1..]);
      forall i | 0 < i < |ms| ensures MapMatches(inputAddress, ms)[i] == ToGeocodeResult(inputAddress, ms[i]) {
        assert ms[1..][i - 1] == ms[i];
      }
    }
  }

  /** The results of a parsed response, one per match in order. */
  function ResponseResults(body: GeocoderBody): seq<GeocodeResult> {
    match body.result
    case None => []
    case Some(res) =>
      match res.addressMatches
      case None => []
      case Some(ms) => MapMatches(res.inputAddress, ms)
  }

  /** Missing matches give no results; otherwise there is one result per match, in order,
      at the match's [x, y], scored 100 when the match has a TIGER/Line side and 90
      otherwise, with the echoed input address (or `''`) and the match's geographies (or
      `{}`). */
  lemma ResponseResultsSpec(body: GeocoderBody)
    ensures body.result.None? || body.result.value.addressMatches.None? ==> ResponseResults(body) == []
    ensures body.result.Some? && body.result.value.addressMatches.Some? ==>
      var ms := body.result.value.addressMatches.value;
      var r := ResponseResults(body);
      |r| == |ms| &&
      forall i :: 0 <= i < |r| ==>
        r[i].coordinates == (ms[i].x, ms[i].y) &&
        r[i].matchScore == (if Truthy(ms[i].side) then 100 else 90) &&
        r[i].inputAddress == (if Truthy(body.result.value.inputAddress) then body.result.value.inputAddress else Str("")) &&
        r[i].matchedAddress == ms[i].matchedAddress && r[i].side == ms[i].side && r[i].tigerLineId == ms[i].tigerLineId &&
        r[i].geographies == (if ms[i].geographies.Some? then ms[i].geographies.value else map[])
  {
    if body.result.Some? && body.result.value.addressMatches.Some? {
      MapMatchesAt(body.result.value.inputAddress, body.result.value.addressMatches.value);
    }
  }

  const GEOCODE_FAILURE := "Failed to geocode address: "

  /** The message of a failed request, before wrapping. */
  function ResponseError(response: Response<GeocoderBody>): string
    requires !response.Received?
  {
    match response
    case Failed(e) => e
    case HttpError(status, statusText) => "Geocoding API error: " + IntToString(status) + " " + statusText
  }

  /** One `geocodeAddress` call against a cache: the result and the request it sent (none
      on a cache hit). */
  datatype Step = Step(result: Result<seq<GeocodeResult>>, request: Option<Url<string>>)

  function GeocodeStep(cache: Cache, address: AddressComponents, response: Response<GeocoderBody>): Step {
    var key := CacheKey(address);
    if key in cache then Step(Ok(cache[key]), None)
    else
      var request := Some(BuildRequest(address));
      match response
      case Received(body) => Step(Ok(ResponseResults(body)), request)
      case _ => Step(Err(GEOCODE_FAILURE + ResponseError(response)), request)
  }

  /** The cache after a call: the results are stored under the key when the call sent a
      request and found matches. */
  function Written(cache: Cache, key: string, s: Step): Cache {
    if s.request.Some? && s.result.Ok? && |s.result.value| > 0 then cache[key := s.result.value] else cache
  }

  /** A hit returns the cached list, sends nothing and leaves the cache alone. A miss sends
      the address's request; a failure (thrown or a non-OK status) becomes an error with the
      geocoding prefix and leaves the cache alone; a response yields its results, which are
      cached only when there are some. */
  lemma GeocodeStepSpec(cache: Cache, address: AddressComponents, response: Response<GeocoderBody>)
    ensures CacheKey(address) in cache ==>
      GeocodeStep(cache, address, response) == Step(Ok(cache[CacheKey(address)]), None) &&
      Written(cache, CacheKey(address), GeocodeStep(cache, address, response)) == cache
    ensures CacheKey(address) !in cache ==> GeocodeStep(cache, address, response).request == Some(BuildRequest(address))
    ensures CacheKey(address) !in cache && !response.Received? ==>
      GeocodeStep(cache, address, response).result == Err(GEOCODE_FAILURE + ResponseError(response)) &&
      Written(cache, CacheKey(address), GeocodeStep(cache, address, response)) == cache
    ensures CacheKey(address) !in cache && response.Received? ==>
      GeocodeStep(cache, address, response).result == Ok(ResponseResults(response.body)) &&
      Written(cache, CacheKey(address), GeocodeStep(cache, address, response)) ==
        if |ResponseResults(response.body)| > 0 then cache[CacheKey(address) := ResponseResults(response.body)] else cache
  {
  }

  /** The cache invariant: no entry is an empty list. */
  predicate CacheValid(cache: Cache) {
    forall k :: k in cache ==> |cache[k]| > 0
  }

  /** A write keeps the cache valid. */
  lemma WrittenKeepsValid(cache: Cache, key: string, s: Step)
    requires CacheValid(cache)
    ensures CacheValid(Written(cache, key, s))
  {
  }

  /** A second call with the same address (in any letter case) is a cache hit with the
      first call's results, whatever the second response would have been. */
  lemma SecondCallIsCached(cache: Cache, address: AddressComponents, again: AddressComponents,
                           r1: Response<GeocoderBody>, r2: Response<GeocoderBody>)
    requires CacheKey(again) == CacheKey(address)
    requires GeocodeStep(cache, address, r1).result.Ok? && |GeocodeStep(cache, address, r1).result.value| > 0
    ensures GeocodeStep(Written(cache, CacheKey(address), GeocodeStep(cache, address, r1)), again, r2) ==
      Step(GeocodeStep(cache, address, r1).result, None)
  {
  }

  /** One call of a batch: the call for position m against a cache. */
  type Call = (Cache, nat) -> Step

  /** The end of the chunk of ten that starts at `i`. */
  function ChunkEnd(n: nat, i: nat): (j: nat)
    requires i < n
    ensures i < j <= n && j - i <= 10
  {
    if i + 10 <= n then i + 10 else n
  }

  /** The calls for positions `i` to `j`, all made against the cache as it was when the
      chunk started: every call looks up the cache before any of the chunk's responses
      arrives. */
  function ChunkSteps(snapshot: Cache, call: Call, i: nat, j: nat): (r: seq<Step>)
    requires i <= j
    ensures |r| == j - i
    ensures forall k :: 0 <= k < j - i ==> r[k] == call(snapshot, i + k)
  {
    seq(j - i, k requires 0 <= k < j - i => call(snapshot, i + k))
  }

  /** The writes of the first `n` calls of the chunk starting at `i`, applied in index
      order; a call writes when it sent a request and found matches. */
  function ApplyWrites(cache: Cache, steps: seq<Step>, key: nat -> string, i: nat, n: nat): Cache
    requires n <= |steps|
  {
    if n == 0 then cache
    else
      var before := ApplyWrites(cache, steps, key, i, n - 1);
      Written(before, key(i + n - 1), steps[n - 1])
  }

  /** The first error among the first `n` calls, in index order. */
  function FirstError(steps: seq<Step>, n: nat): Option<string>
    requires n <= |steps|
  {
    if n == 0 then None
    else
      match FirstError(steps, n - 1)
      case Some(e) => Some(e)
      case None => if steps[n - 1].result.Err? then Some(steps[n - 1].result.message) else None
  }

  /** The results of the first `n` calls (an error yields `[]` here; `FirstError` reports
      it). */
  function Values(steps: seq<Step>, n: nat): (r: seq<seq<GeocodeResult>>)
    requires n <= |steps|
    ensures |r| == n
  {
    seq(n, k requires 0 <= k < n => if steps[k].result.Ok? then steps[k].result.value else [])
  }

  lemma ValuesSnoc(steps: seq<Step>, n: nat)
    requires n < |steps|
    ensures Values(steps, n + 1) == Values(steps, n) + [if steps[n].result.Ok? then steps[n].result.value else []]
  {
    var l := Values(steps, n + 1);
    var r := Values(steps, n) + [if steps[n].result.Ok? then steps[n].result.value else []];
    assert |l| == |r|;
    forall x | 0 <= x < |l| ensures l[x] == r[x] {
    }
  }

  const BATCH_FAILURE := "Failed to batch geocode addresses: "

  /** The batch over positions `i` to `n`, with `acc` the results so far: chunk by chunk,
      the first failing chunk ends the batch with its first error, after its writes. */
  function BatchFrom(cache: Cache, n: nat, call: Call, key: nat -> string, i: nat, acc: seq<seq<GeocodeResult>>)
    : (Result<seq<seq<GeocodeResult>>>, Cache)
    decreases n - i
  {
    if i >= n then (Ok(acc), cache)
    else
      var j := ChunkEnd(n, i);
      var steps := ChunkSteps(cache, call, i, j);
      var cache' := ApplyWrites(cache, steps, key, i, j - i);
      match FirstError(steps, j - i)
      case Some(e) => (Err(BATCH_FAILURE + e), cache')
      case None => BatchFrom(cache', n, call, key, j, acc + Values(steps, j - i))
  }

  /** The cache as it is when the chunk holding position `m` starts. */
  function CacheBeforeChunk(cache: Cache, n: nat, call: Call, key: nat -> string, i: nat, m: nat): Cache
    decreases n - i
  {
    if i >= n then cache
    else
      var j := ChunkEnd(n, i);
      if m < j then cache
      else CacheBeforeChunk(ApplyWrites(cache, ChunkSteps(cache, call, i, j), key, i, j - i), n, call, key, j, m)
  }

  /** No error among the first `n` calls exactly when each of them succeeded. */
  lemma {:induction false} NoErrorAllOk(steps: seq<Step>, n: nat)
    requires n <= |steps|
    ensures FirstError(steps, n).None? <==> forall k :: 0 <= k < n ==> steps[k].result.Ok?
  {
    if n > 0 {
      NoErrorAllOk(steps, n - 1);
    }
  }

  /** A successful batch has one result list per position, in order: the list at position
      m is what call m returns against the cache as its chunk found it. */
  lemma {:induction false} BatchResultsInOrder(cache: Cache, n: nat, call: Call, key: nat -> string, i: nat,
                                               acc: seq<seq<GeocodeResult>>)
    requires i <= n
    requires BatchFrom(cache, n, call, key, i, acc).0.Ok?
    ensures |BatchFrom(cache, n, call, key, i, acc).0.value| == |acc| + n - i
    ensures BatchFrom(cache, n, call, key, i, acc).0.value[..|acc|] == acc
    ensures forall m :: i <= m < n ==>
      call(CacheBeforeChunk(cache, n, call, key, i, m), m).result == Ok(BatchFrom(cache, n, call, key, i, acc).0.value[|acc| + m - i])
    decreases n - i
  {
    if i < n {
      var j := ChunkEnd(n, i);
      var steps := ChunkSteps(cache, call, i, j);
      var cache' := ApplyWrites(cache, steps, key, i, j - i);
      var acc' := acc + Values(steps, j - i);
      assert FirstError(steps, j - i).None?;
      NoErrorAllOk(steps, j - i);
      BatchResultsInOrder(cache', n, call, key, j, acc');
      var rs := BatchFrom(cache', n, call, key, j, acc').0.value;
      assert BatchFrom(cache, n, call, key, i, acc).0.value == rs;
      assert rs[..|acc|] == acc by {
        assert rs[..|acc'|] == acc';
        assert acc'[..|acc|] == acc;
      }
      forall m | i <= m < n
        ensures call(CacheBeforeChunk(cache, n, call, key, i, m), m).result == Ok(rs[|acc| + m - i])
      {
        if m < j {
          assert steps[m - i] == call(cache, m);
          assert rs[|acc| + m - i] == acc'[|acc| + m - i];
        } else {
          assert CacheBeforeChunk(cache, n, call, key, i, m) == CacheBeforeChunk(cache', n, call, key, j, m);
        }
      }
    }
  }

  /** When no call can fail, the batch succeeds. */
  lemma {:induction false} BatchSucceedsWithoutErrors(cache: Cache, n: nat, call: Call, key: nat -> string, i: nat,
                                                      acc: seq<seq<GeocodeResult>>)
    requires forall c, m :: i <= m < n ==> call(c, m).result.Ok?
    ensures BatchFrom(cache, n, call, key, i, acc).0.Ok?
    decreases n - i
  {
    if i < n {
      var j := ChunkEnd(n, i);
      var steps := ChunkSteps(cache, call, i, j);
      NoErrorAllOk(steps, j - i);
      BatchSucceedsWithoutErrors(ApplyWrites(cache, steps, key, i, j - i), n, call, key, j, acc + Values(steps, j - i));
    }
  }

  /** Writes only ever store non-empty lists, so the cache stays valid through a chunk. */
  lemma {:induction false} ApplyWritesKeepsValid(cache: Cache, steps: seq<Step>, key: nat -> string, i: nat, n: nat)
    requires n <= |steps| && CacheValid(cache)
    ensures CacheValid(ApplyWrites(cache, steps, key, i, n))
  {
    if n > 0 {
      ApplyWritesKeepsValid(cache, steps, key, i, n - 1);
    }
  }

  /** ... and through a whole batch, whether it succeeds or fails. */
  lemma {:induction false} BatchKeepsCacheValid(cache: Cache, n: nat, call: Call, key: nat -> string, i: nat,
                                                acc: seq<seq<GeocodeResult>>)
    requires CacheValid(cache)
    ensures CacheValid(BatchFrom(cache, n, call, key, i, acc).1)
    decreases n - i
  {
    if i < n {
      var j := ChunkEnd(n, i);
      var steps := ChunkSteps(cache, call, i, j);
      ApplyWritesKeepsValid(cache, steps, key, i, j - i);
      BatchKeepsCacheValid(ApplyWrites(cache, steps, key, i, j - i), n, call, key, j, acc + Values(steps, j - i));
    }
  }

  /** Geocoding address m with the response its request gets. */
  function GeocodeCall(addresses: seq<AddressComponents>, respond: nat -> Response<GeocoderBody>): Call {
    (c: Cache, m: nat) => if m < |addresses| then GeocodeStep(c, addresses[m], respond(m)) else Step(Ok([]), None)
  }

  /** The cache key of address m. */
  function AddressKey(addresses: seq<AddressComponents>): nat -> string {
    (m: nat) => if m < |addresses| then CacheKey(addresses[m]) else ""
  }

  /** `batchGeocodeAddresses` as a value: its result and the cache afterwards. */
  function BatchGeocode(cache: Cache, addresses: seq<AddressComponents>, respond: nat -> Response<GeocoderBody>)
    : (Result<seq<seq<GeocodeResult>>>, Cache)
  {
    BatchFrom(cache, |addresses|, GeocodeCall(addresses, respond), AddressKey(addresses), 0, [])
  }

  /** A successful batch returns one result list per address, in order, each being what
      `geocodeAddress` returns for that address against the cache as its chunk of ten
      found it. */
  lemma BatchGeocodeInOrder(cache: Cache, addresses: seq<AddressComponents>, respond: nat -> Response<GeocoderBody>)
    requires BatchGeocode(cache, addresses, respond).0.Ok?
    ensures |BatchGeocode(cache, addresses, respond).0.value| == |addresses|
    ensures forall m :: 0 <= m < |addresses| ==>
      GeocodeStep(CacheBeforeChunk(cache, |addresses|, GeocodeCall(addresses, respond), AddressKey(addresses), 0, m),
                  addresses[m], respond(m)).result == Ok(BatchGeocode(cache, addresses, respond).0.value[m])
  {
    BatchResultsInOrder(cache, |addresses|, GeocodeCall(addresses, respond), AddressKey(addresses), 0, []);
  }

  /** When every request gets a response (even one without matches), the batch succeeds. */
  lemma BatchGeocodeSucceeds(cache: Cache, addresses: seq<AddressComponents>, respond: nat -> Response<GeocoderBody>)
    requires forall m :: 0 <= m < |addresses| ==> respond(m).Received?
    ensures BatchGeocode(cache, addresses, respond).0.Ok?
  {
    var call := GeocodeCall(addresses, respond);
    forall c, m | 0 <= m < |addresses| ensures call(c, m).result.Ok? {
      GeocodeStepSpec(c, addresses[m], respond(m));
    }
    BatchSucceedsWithoutErrors(cache, |addresses|, call, AddressKey(addresses), 0, []);
  }

  /** A batch, successful or not, keeps the cache valid. */
  lemma BatchGeocodeKeepsValid(cache: Cache, addresses: seq<AddressComponents>, respond: nat -> Response<GeocoderBody>)
    requires CacheValid(cache)
    ensures CacheValid(BatchGeocode(cache, addresses, respond).1)
  {
    BatchKeepsCacheValid(cache, |addresses|, GeocodeCall(addresses, respond), AddressKey(addresses), 0, []);
  }

  /** The module-level cache and the two operations that use it. */
  class Geocoder {
    var cache: Cache

    constructor ()
      ensures cache == map[]
    {
      cache := map[];
    }

    /** `geocodeAddress(address)`, with the response the request would get. */
    method GeocodeAddress(address: AddressComponents, response: Response<GeocoderBody>)
      returns (result: Result<seq<GeocodeResult>>, request: Option<Url<string>>)
      modifies this
      ensures Step(result, request) == GeocodeStep(old(cache), address, response)
      ensures cache == Written(old(cache), CacheKey(address), Step(result, request))
      ensures CacheValid(old(cache)) ==> CacheValid(cache)
    {
      var s := GeocodeStep(cache, address, response);
      if CacheValid(cache) {
        WrittenKeepsValid(cache, CacheKey(address), s);
      }
      result, request := s.result, s.request;
      cache := Written(cache, CacheKey(address), s);
    }

    /** The calls of the chunk from `i` to `j`: each runs against the cache as it was when
        the chunk started, and their writes land in index order. `call(c, m)` is the m-th
        lookup against cache `c` and `key(m)` its cache key. */
    method GeocodeChunk(call: Call, key: nat -> string, i: nat, j: nat)
      returns (batchResults: seq<seq<GeocodeResult>>, error: Option<string>)
      requires i <= j
      modifies this
      ensures cache == ApplyWrites(old(cache), ChunkSteps(old(cache), call, i, j), key, i, j - i)
      ensures error == FirstError(ChunkSteps(old(cache), call, i, j), j - i)
      ensures batchResults == Values(ChunkSteps(old(cache), call, i, j), j - i)
    {
      var snapshot := cache;
      ghost var steps := ChunkSteps(snapshot, call, i, j);
      batchResults := [];
      error := None;
      var k := 0;
      while k < j - i
        invariant 0 <= k <= j - i
        invariant cache == ApplyWrites(snapshot, steps, key, i, k)
        invariant error == FirstError(steps, k)
        invariant batchResults == Values(steps, k)
      {
        var s := call(snapshot, i + k);
        ValuesSnoc(steps, k);
        cache := Written(cache, key(i + k), s);
        if error.None? && s.result.Err? {
          error := Some(s.result.message);
        }
        batchResults := batchResults + [if s.result.Ok? then s.result.value else []];
        k := k + 1;
      }
    }

    /** The batch loop over positions 0 to `n`, in chunks of ten, stopping at the first
        chunk with an error. */
    method RunBatch(n: nat, call: Call, key: nat -> string)
      returns (result: Result<seq<seq<GeocodeResult>>>)
      modifies this
      ensures (result, cache) == BatchFrom(old(cache), n, call, key, 0, [])
    {
      var results: seq<seq<GeocodeResult>> := [];
      var i := 0;
      while i < n
        invariant 0 <= i <= n
        invariant BatchFrom(cache, n, call, key, i, results) == BatchFrom(old(cache), n, call, key, 0, [])
        decreases n - i
      {
        var j := if i + 10 <= n then i + 10 else n;
        assert j == ChunkEnd(n, i);
        var batchResults, error := GeocodeChunk(call, key, i, j);
        if error.Some? {
          result := Err(BATCH_FAILURE + error.value);
          return;
        }
        results := results + batchResults;
        i := j;
      }
      result := Ok(results);
    }

    /** `batchGeocodeAddresses(addresses)`; `respond(i)` is the response the request for
        address i would get. */
    method BatchGeocodeAddresses(addresses: seq<AddressComponents>, respond: nat -> Response<GeocoderBody>)
      returns (result: Result<seq<seq<GeocodeResult>>>)
      modifies this
      ensures (result, cache) == BatchGeocode(old(cache), addresses, respond)
    {
      result := RunBatch(|addresses|, GeocodeCall(addresses, respond), AddressKey(addresses));
    }
  }
}
