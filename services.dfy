/**
 * The two response-extraction helpers of the fare page, with the HTTP round trip
 * abstracted into a provider function from the request that would be sent to the
 * reply that comes back.
 */
module Services {
  import opened Wrappers

  /** Inputs shorter than this never reach the autocomplete provider. */
  const MinQueryLength: nat := 2

  // The fixed query parameters that bias every autocomplete request towards New York City.
  const PlaceTypes: string := "geocode"
  const CountryComponent: string := "country:us"
  const Language: string := "en"
  const NycCenter: string := "40.7128,-74.0060"
  const SearchRadiusMeters: nat := 50000

  /** The query parameters of one autocomplete request (the API key is left out). */
  datatype AutocompleteRequest = AutocompleteRequest(
    input: string,
    types: string,
    components: string,
    language: string,
    location: string,
    radius: nat)

  /** One prediction object; `None` when it has no `description` key. */
  datatype Prediction = Prediction(description: Option<string>)

  /** What the autocomplete endpoint gives back. */
  datatype AutocompleteReply =
    | AutocompleteFailed                                  // the request or the JSON decoding raised
    | AutocompleteBody(predictions: Option<seq<Prediction>>) // `None`: the body has no `predictions` key

  /** The request sent for a given text: the text plus the fixed NYC bias. */
  function NycQuery(inputText: string): AutocompleteRequest {
    AutocompleteRequest(inputText, PlaceTypes, CountryComponent, Language, NycCenter, SearchRadiusMeters)
  }

  /** `r` lists, one for one and in the same order, the descriptions of `predictions`. */
  predicate DescribedInOrder(predictions: seq<Prediction>, r: seq<string>) {
    |r| == |predictions| && forall k :: 0 <= k < |r| ==> predictions[k].description == Some(r[k])
  }

  predicate AllDescribed(predictions: seq<Prediction>) {
    forall k :: 0 <= k < |predictions| ==> predictions[k].description.Some?
  }

  /**
   * The list comprehension over the predictions: every description in provider order,
   * or `None` when some prediction lacks one (the lookup raises and the whole list is lost).
   */
  function Descriptions(predictions: seq<Prediction>): (r: Option<seq<string>>)
    ensures r.Some? <==> AllDescribed(predictions)
    ensures r.Some? ==> DescribedInOrder(predictions, r.value)
  {
    if predictions == [] then Some([])
    else
      match (predictions[0].description, Descriptions(predictions[1..]))
      case (Some(d), Some(rest)) => Some([d] + rest)
      case _ => None
  }

  /**
   * `autocomplete_place_nyc`: the suggestion list for the typed text. Short input gives
   * the empty list without consulting `provider`; every failure is swallowed into `[]`.
   */
  function AutocompletePlaceNyc(inputText: string, provider: AutocompleteRequest -> AutocompleteReply): (r: seq<string>)
    ensures |inputText| < MinQueryLength ==> r == []
    ensures |inputText| >= MinQueryLength ==>
      match provider(NycQuery(inputText))
      case AutocompleteFailed => r == []
      case AutocompleteBody(None) => r == []
      case AutocompleteBody(Some(ps)) =>
        (AllDescribed(ps) ==> DescribedInOrder(ps, r)) && (!AllDescribed(ps) ==> r == [])
  {
    if |inputText| < MinQueryLength then []
    else
      match provider(NycQuery(inputText))
      case AutocompleteFailed => []
      case AutocompleteBody(found) =>
        var predictions := if found.Some? then found.value else [];
        match Descriptions(predictions)
        case Some(descriptions) => descriptions
        case None => []
  }

  /** A geocoded position. */
  datatype Location = Location(lat: real, lng: real)

  /** What the geocoding endpoint gives back for one address. */
  datatype GeocodeReply =
    | GeocodeFailed                                 // the request, the JSON decoding or the first result's lookup raised
    | GeocodeBody(results: Option<seq<Location>>)   // `None`: the body has no `results` key

  /**
   * `get_coordinates`: the first result's position, `None` standing for the pair
   * `(None, None)` when there is no result. Nothing is caught here, so a failed
   * request surfaces as `Raised`.
   */
  function GetCoordinates(placeName: string, geocoder: string -> GeocodeReply): (r: Call<Option<Location>>)
    ensures r.Raised? <==> geocoder(placeName).GeocodeFailed?
    ensures r.Returned? ==>
      var found := geocoder(placeName).results;
      (r.value.Some? <==> found.Some? && found.value != []) &&
      (r.value.Some? ==> r.value.value == found.value[0])
  {
    match geocoder(placeName)
    case GeocodeFailed => Raised
    case GeocodeBody(found) =>
      var results := if found.Some? then found.value else [];
      if results != [] then Returned(Some(results[0])) else Returned(None)
  }

  /** The latitude half of what `get_coordinates` returns. */
  function Latitude(position: Option<Location>): (lat: Option<real>) {
    if position.Some? then Some(position.value.lat) else None
  }

  /** The passenger count the number widget allows. */
  type PassengerCount = n: int | 1 <= n <= 8 witness 1

  /** The query parameters of one fare prediction request. */
  datatype FareRequest = FareRequest(
    pickupDatetime: string,
    pickupLongitude: real,
    pickupLatitude: real,
    dropoffLongitude: real,
    dropoffLatitude: real,
    passengerCount: PassengerCount)

  /** What the fare endpoint gives back. */
  datatype FareReply =
    | FareFailed                    // the request or the JSON decoding raised
    | FareBody(fare: Option<real>)  // `None`: the body has no `fare` key
}
