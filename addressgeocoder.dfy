/** The structured address form: four fields, a check that enough of them are filled in,
    the geocoder's outcome kept as the result list or an error line, and a clear button. */
module AddressGeocoder {
  import opened Wrappers
  import opened Urls
  import MapConstants
  import opened GeocodingService

  /** The form's input fields, by their `name` attribute. */
  datatype Field = Street | City | State | Zip

  const BLANK := AddressComponents("", Some(""), Some(""), Some(""))
  const VALIDATION_MESSAGE := "Please provide street and zip code OR street, city and state"
  const NO_MATCH_MESSAGE := "No matching addresses found"
  const ERROR_TOAST_TITLE := "Geocoding Error"

  /** The form may be submitted: a street, and a zip or both city and state. */
  predicate Submittable(address: AddressComponents) {
    address.street != "" && (Present(address.zip) || (Present(address.city) && Present(address.state)))
  }

  /** `{...prev, [name]: value}`: one field replaced, the others kept. */
  function WithField(address: AddressComponents, name: Field, value: string): (r: AddressComponents)
    ensures name == Street ==> r.street == value && r.(street := address.street) == address
    ensures name == City ==> r.city == Some(value) && r.(city := address.city) == address
    ensures name == State ==> r.state == Some(value) && r.(state := address.state) == address
    ensures name == Zip ==> r.zip == Some(value) && r.(zip := address.zip) == address
  {
    match name
    case Street => address.(street := value)
    case City => address.(city := Some(value))
    case State => address.(state := Some(value))
    case Zip => address.(zip := Some(value))
  }

  /** Whatever the form submits is looked up on the structured-address endpoint, never by
      one-line text: a zip sends street and zip, otherwise city and state are both there. */
  lemma SubmittedUsesAddressEndpoint(address: AddressComponents)
    requires Submittable(address)
    ensures BuildRequest(address).base == MapConstants.ADDRESS_ENDPOINT
    ensures ParamValue(BuildRequest(address).params, "street") == Some(address.street)
  {
    BuildRequestSpec(address);
    var params := BuildRequest(address).params;
    assert params == params[..3] + params[3..];
    ParamAt(params, 3);
  }

  /** What the form passes on. */
  datatype Delivery = Delivered(results: seq<GeocodeResult>) | NotDelivered

  /** A destructive toast: its title and description. */
  datatype Toast = Toast(title: string, description: string)

  class AddressForm {
    var address: AddressComponents
    var isLoading: bool
    var results: seq<GeocodeResult>
    var error: Option<string>
    const hasOnResults: bool

    /** The form starts from the given address, or blank. */
    constructor (initialAddress: Option<AddressComponents>, hasOnResults: bool)
      ensures address == initialAddress.GetOr(BLANK)
      ensures !isLoading && results == [] && error == None
      ensures this.hasOnResults == hasOnResults
    {
      address := initialAddress.GetOr(BLANK);
      isLoading := false;
      results := [];
      error := None;
      this.hasOnResults := hasOnResults;
    }

    /** Typing in one field. */
    method InputChange(name: Field, value: string)
      modifies this
      ensures address == WithField(old(address), name, value)
      ensures isLoading == old(isLoading) && results == old(results) && error == old(error)
    {
      address := WithField(address, name, value);
    }

    /** Submitting: an incomplete form shows the validation message and sends nothing;
        otherwise loading starts, the error line clears and the address goes to the
        geocoder. */
    method Submit() returns (request: Option<AddressComponents>)
      modifies this
      ensures address == old(address) && results == old(results)
      ensures !Submittable(address) ==>
        request == None && error == Some(VALIDATION_MESSAGE) && isLoading == old(isLoading)
      ensures Submittable(address) ==> request == Some(address) && error == None && isLoading
    {
      if address.street == "" || (!Present(address.zip) && !(Present(address.city) && Present(address.state))) {
        error := Some(VALIDATION_MESSAGE);
        return None;
      }
      isLoading := true;
      error := None;
      request := Some(address);
    }

    /** The geocoder's outcome: results replace the list, an empty list sets the no-match
        line, a non-empty one goes to the callback; an error keeps the old list, shows its
        message on the error line and raises a "Geocoding Error" toast with it. Loading ends
        either way. */
    method GeocodeReturned(outcome: Result<seq<GeocodeResult>>) returns (delivery: Delivery, toast: Option<Toast>)
      modifies this
      ensures address == old(address) && !isLoading
      ensures outcome.Ok? ==> results == outcome.value
      ensures outcome.Ok? ==> (error == if outcome.value == [] then Some(NO_MATCH_MESSAGE) else old(error))
      ensures outcome.Err? ==> results == old(results) && error == Some(outcome.message)
      ensures delivery.Delivered? <==> hasOnResults && outcome.Ok? && outcome.value != []
      ensures delivery.Delivered? ==> delivery.results == results
      ensures toast.Some? <==> outcome.Err?
      ensures outcome.Err? ==> toast == Some(Toast(ERROR_TOAST_TITLE, outcome.message))
    {
      delivery, toast := NotDelivered, None;
      match outcome {
        case Ok(found) =>
          results := found;
          if found == [] {
            error := Some(NO_MATCH_MESSAGE);
          } else if hasOnResults {
            delivery := Delivered(found);
          }
        case Err(message) =>
          error := Some(message);
          toast := Some(Toast(ERROR_TOAST_TITLE, message));
      }
      isLoading := false;
    }

    /** Clearing: a blank form, no results, no error line. */
    method Clear()
      modifies this
      ensures address == BLANK && results == [] && error == None && isLoading == old(isLoading)
      ensures !Submittable(address)
    {
      address := BLANK;
      results := [];
      error := None;
    }

    /** Choosing one result passes it on alone. */
    method SelectResult(result: GeocodeResult) returns (delivery: Delivery)
      ensures delivery == if hasOnResults then Delivered([result]) else NotDelivered
    {
      delivery := if hasOnResults then Delivered([result]) else NotDelivered;
    }
  }
}
