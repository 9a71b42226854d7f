/** The one-line address search box: the query is cut into street, city, state and zip as
    "123 Main St, City, ST 12345" suggests, handed to the geocoder, and its outcome becomes
    the results passed on, or a notice. */
module SearchBox {
  import opened Wrappers
  import opened Strings
  import opened GeocodingService

  /** `parts.map(part => part.trim())`. */
  function TrimAll(parts: seq<string>): (r: seq<string>)
    ensures |r| == |parts|
    ensures forall i :: 0 <= i < |r| ==> r[i] == Trim(parts[i])
  {
    seq(|parts|, i requires 0 <= i < |parts| => Trim(parts[i]))
  }

  /** The components read off a one-line query: the first comma-separated part is the
      street, the second the city, and the third part's first space-separated word the state
      with the remaining words, joined by single spaces, the zip. Parts after the third are
      ignored. */
  function ParseOneLine(query: string): AddressComponents {
    var parts := TrimAll(Split(query, ','));
    var city := if |parts| > 1 then Some(parts[1]) else None;
    var stateZip := if |parts| > 2 then NonEmpty(Split(parts[2], ' ')) else [];
    var state := if |stateZip| >= 1 then Some(stateZip[0]) else None;
    var zip := if |stateZip| >= 2 then Some(Join(stateZip[1..], " ")) else None;
    AddressComponents(parts[0], city, state, zip)
  }

  /** What the parse always gives: the street is the trimmed text before the first comma, a
      city is present exactly when the query holds a comma, and a state, when present, is a
      single non-empty word. */
  lemma ParseShape(query: string)
    ensures ParseOneLine(query).street == Trim(Split(query, ',')[0])
    ensures ParseOneLine(query).city.Some? <==> ',' in query
    ensures ParseOneLine(query).zip.Some? ==> ParseOneLine(query).state.Some?
    ensures ParseOneLine(query).state.Some? ==>
      ParseOneLine(query).state.value != "" && ' ' !in ParseOneLine(query).state.value
  {
    SplitManyIffSep(query, ',');
    var parts := TrimAll(Split(query, ','));
    if |parts| > 2 {
      var words := Split(parts[2], ' ');
      SplitPiecesLackSep(parts[2], ' ');
      NonEmptyKeeps(words);
      if |NonEmpty(words)| >= 1 {
        var w := NonEmpty(words)[0];
        assert w in words;
        var k :| 0 <= k < |words| && words[k] == w;
      }
    }
  }

  /** A piece with no white space at either end, which trimming leaves alone. */
  predicate Tidy(s: string) {
    s != [] && !IsSpace(s[0]) && !IsSpace(s[|s| - 1])
  }

  lemma {:induction false} TrimSpaced(s: string)
    requires Tidy(s)
    ensures Trim(" " + s) == s
  {
    TrimStartSpacePrefix(" ", s);
    TrimNoOp(s);
  }

  lemma {:induction false} SplitThree(street: string, city: string, tail: string)
    requires ',' !in street && ',' !in city && ',' !in tail
    ensures Split(street + ", " + city + ", " + tail, ',') == [street, " " + city, " " + tail]
  {
    var rest := " " + city + [','] + " " + tail;
    assert street + ", " + city + ", " + tail == street + [','] + rest;
    SplitAtSep(street, rest, ',');
    assert rest == (" " + city) + [','] + (" " + tail);
    SplitAtSep(" " + city, " " + tail, ',');
    SplitNoSep(" " + tail, ',');
  }

  lemma {:induction false} StateZipWords(state: string, zip: string)
    requires state != "" && zip != ""
    requires ' ' !in state && ' ' !in zip
    ensures NonEmpty(Split(state + " " + zip, ' ')) == [state, zip]
  {
    SplitAtSep(state, zip, ' ');
    SplitNoSep(zip, ' ');
    assert Split(state + " " + zip, ' ') == [state, zip];
    assert [state, zip][1..] == [zip];
    assert [zip][1..] == [];
    assert NonEmpty([zip]) == [zip] + NonEmpty([]);
    assert NonEmpty([state, zip]) == [state] + NonEmpty([zip]);
  }

  /** Round trip: an address written in the placeholder's format "street, city, ST zip" is
      read back into exactly its four components. */
  lemma ParseFormat(street: string, city: string, state: string, zip: string)
    requires Tidy(street) && Tidy(city) && Tidy(state) && Tidy(zip)
    requires ',' !in street && ',' !in city && ',' !in state && ',' !in zip
    requires ' ' !in state && ' ' !in zip
    ensures ParseOneLine(street + ", " + city + ", " + state + " " + zip) ==
      AddressComponents(street, Some(city), Some(state), Some(zip))
  {
    var tail := state + " " + zip;
    assert ',' !in tail;
    SplitThree(street, city, tail);
    assert street + ", " + city + ", " + state + " " + zip == street + ", " + city + ", " + tail;
    TrimNoOp(street);
    TrimSpaced(city);
    TrimSpaced(tail);
    StateZipWords(state, zip);
    assert [state, zip][1..] == [zip];
  }

  /** The placeholder's example query reads as street, city, state and zip. */
  lemma PlaceholderExample(street: string, city: string, state: string, zip: string)
    requires street == "123 Main St" && city == "Baltimore" && state == "MD" && zip == "21227"
    ensures ParseOneLine(street + ", " + city + ", " + state + " " + zip) ==
      AddressComponents(street, Some(city), Some(state), Some(zip))
  {
    ParseFormat(street, city, state, zip);
  }

  /** What the box shows or passes on when the geocoder answers. */
  datatype Notice = Delivered(results: seq<GeocodeResult>) | Toast(title: string, description: string) | Silent

  const NO_MATCH_TITLE := "No matching addresses found"
  const NO_MATCH_HINT := "Try adjusting your search query"
  const ERROR_TITLE := "Geocoding Error"

  /** The search box component; `hasOnResults` says whether a results callback was given. */
  class SearchBoxState {
    var searchQuery: string
    var isLoading: bool
    const hasOnResults: bool

    constructor (hasOnResults: bool)
      ensures this.hasOnResults == hasOnResults
      ensures searchQuery == "" && !isLoading
    {
      this.hasOnResults := hasOnResults;
      searchQuery := "";
      isLoading := false;
    }

    /** Typing in the box. */
    method SetQuery(q: string)
      modifies this
      ensures searchQuery == q && isLoading == old(isLoading)
    {
      searchQuery := q;
    }

    /** Submitting: a blank query does nothing; otherwise loading starts and the parsed
        components go to the geocoder. */
    method Submit() returns (request: Option<AddressComponents>)
      modifies this
      ensures searchQuery == old(searchQuery)
      ensures AllSpace(searchQuery) ==> request == None && isLoading == old(isLoading)
      ensures !AllSpace(searchQuery) ==> request == Some(ParseOneLine(searchQuery)) && isLoading
    {
      BlankIffAllSpace(searchQuery);
      if Trim(searchQuery) == "" {
        return None;
      }
      isLoading := true;
      request := Some(ParseOneLine(searchQuery));
    }

    /** The geocoder's outcome: an error becomes an error notice with its message, no
        results a "no match" notice, results go to the callback when there is one; loading
        ends in every case. */
    method GeocodeReturned(outcome: Result<seq<GeocodeResult>>) returns (notice: Notice)
      modifies this
      ensures searchQuery == old(searchQuery) && !isLoading
      ensures outcome.Err? ==> notice == Toast(ERROR_TITLE, outcome.message)
      ensures outcome == Ok([]) ==> notice == Toast(NO_MATCH_TITLE, NO_MATCH_HINT)
      ensures outcome.Ok? && outcome.value != [] ==> (notice == if hasOnResults then Delivered(outcome.value) else Silent)
    {
      match outcome {
        case Err(message) =>
          notice := Toast(ERROR_TITLE, message);
        case Ok(results) =>
          if results == [] {
            notice := Toast(NO_MATCH_TITLE, NO_MATCH_HINT);
          } else if hasOnResults {
            notice := Delivered(results);
          } else {
            notice := Silent;
          }
      }
      isLoading := false;
    }
  }
}
