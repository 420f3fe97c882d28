/**
 * The session state behind the fare form as a value, and one pure transition per
 * button of the page. A Streamlit run that handles a click is one `Step`; a
 * session is a sequence of steps from `Initial`.
 */
module Form {
  import opened Wrappers
  import opened Services

  /** The route stored for the map: both positions and both selected names. */
  datatype MapData = MapData(
    pickupLat: real,
    pickupLon: real,
    dropoffLat: real,
    dropoffLon: real,
    pickupName: string,
    dropoffName: string)

  /** The five session fields. */
  datatype State = State(
    pickupFinal: Option<string>,
    dropoffFinal: Option<string>,
    showResults: bool,
    fareResult: Option<real>,
    mapData: Option<MapData>)

  /** The fields as the first run of a session initialises them. */
  const Initial: State := State(None, None, false, None, None)

  datatype Role = Pickup | Dropoff

  /** Python truthiness of an optional string: present and non-empty. */
  predicate IsChosen(name: Option<string>) {
    name.Some? && name.value != ""
  }

  /** Python truthiness of an optional number: present and not zero. */
  predicate IsNonZero(x: Option<real>) {
    x.Some? && x.value != 0.0
  }

  function Final(s: State, role: Role): (name: Option<string>) {
    match role
    case Pickup => s.pickupFinal
    case Dropoff => s.dropoffFinal
  }

  function WithFinal(s: State, role: Role, name: Option<string>): (t: State) {
    match role
    case Pickup => s.(pickupFinal := name)
    case Dropoff => s.(dropoffFinal := name)
  }

  /** The "Change" button exists only while the role holds a selection; it clears it and hides the results. */
  function Change(s: State, role: Role): (t: State) {
    if IsChosen(Final(s, role)) then WithFinal(s, role, None).(showResults := false) else s
  }

  /**
   * Suggestion button `index`: rendered only while the role has no selection and the typed
   * text has at least two characters, and then only for an index of the list fetched in
   * this very run. It stores that suggestion; a press on a button that is not rendered does nothing.
   */
  function Select(s: State, role: Role, typed: string,
                  autocomplete: AutocompleteRequest -> AutocompleteReply, index: nat): (t: State)
  {
    if !IsChosen(Final(s, role)) && |typed| >= MinQueryLength then
      var suggestions := AutocompletePlaceNyc(typed, autocomplete);
      if index < |suggestions| then WithFinal(s, role, Some(suggestions[index])) else s
    else s
  }

  /** How a press of "Predict Fare" ends, and the fare request it sent, if any. */
  datatype PredictOutcome =
    | MissingSelection                                // "select both locations first"
    | GeocodeRaised                                   // get_coordinates raised; the run is aborted
    | CoordinatesNotFound                             // a latitude is None or 0.0
    | FareRaised(request: FareRequest)                // the fare call or its decoding raised
    | NoFare(request: FareRequest)                    // the reply has no `fare` key
    | FareStored(request: FareRequest, fare: real)    // the reply's fare was stored

  predicate RequestSent(o: PredictOutcome) {
    o.FareRaised? || o.NoFare? || o.FareStored?
  }

  datatype Predicted = Predicted(state: State, outcome: PredictOutcome)

  /** The route the fare request was built from, under the current names. */
  function RouteOf(request: FareRequest, pickupName: string, dropoffName: string): (route: MapData) {
    MapData(request.pickupLatitude, request.pickupLongitude,
            request.dropoffLatitude, request.dropoffLongitude, pickupName, dropoffName)
  }

  /**
   * The "Predict Fare" button. The route is stored before the fare reply is looked at, so
   * a failing fare call still replaces `mapData` while keeping the previous fare and flag.
   */
  function Predict(s: State, geocoder: string -> GeocodeReply, fareApi: FareRequest -> FareReply,
                   pickupDatetime: string, passengers: PassengerCount): (r: Predicted)
    ensures r.state.pickupFinal == s.pickupFinal && r.state.dropoffFinal == s.dropoffFinal
    ensures !RequestSent(r.outcome) ==> r.state == s
    ensures RequestSent(r.outcome) ==>
      && IsChosen(s.pickupFinal) && IsChosen(s.dropoffFinal)
      && r.outcome.request.pickupDatetime == pickupDatetime
      && r.outcome.request.passengerCount == passengers
      && r.state.mapData == Some(RouteOf(r.outcome.request, s.pickupFinal.value, s.dropoffFinal.value))
    ensures r.outcome.FareStored? ==> r.state.fareResult == Some(r.outcome.fare) && r.state.showResults
    ensures r.outcome.FareRaised? || r.outcome.NoFare? ==>
      r.state.fareResult == s.fareResult && r.state.showResults == s.showResults
  {
    if !IsChosen(s.pickupFinal) || !IsChosen(s.dropoffFinal) then Predicted(s, MissingSelection)
    else
      var pickup := GetCoordinates(s.pickupFinal.value, geocoder);
      var dropoff := GetCoordinates(s.dropoffFinal.value, geocoder);
      if pickup.Raised? || dropoff.Raised? then Predicted(s, GeocodeRaised)
      else if !IsNonZero(Latitude(pickup.value)) || !IsNonZero(Latitude(dropoff.value)) then
        Predicted(s, CoordinatesNotFound)
      else
        var p, d := pickup.value.value, dropoff.value.value;
        var routed := s.(mapData := Some(MapData(p.lat, p.lng, d.lat, d.lng,
                                                 s.pickupFinal.value, s.dropoffFinal.value)));
        var request := FareRequest(pickupDatetime, p.lng, p.lat, d.lng, d.lat, passengers);
        match fareApi(request)
        case FareFailed => Predicted(routed, FareRaised(request))
        case FareBody(None) => Predicted(routed, NoFare(request))
        case FareBody(Some(fare)) =>
          Predicted(routed.(fareResult := Some(fare), showResults := true), FareStored(request, fare))
  }

  /** The display gate: all three of the flag, the route and the fare must be truthy. */
  predicate ResultsDisplayed(s: State) {
    s.showResults && s.mapData.Some? && IsNonZero(s.fareResult)
  }

  /** One user action, carrying the external replies the run that handles it receives. */
  datatype Action =
    | ChangePressed(role: Role)
    | SuggestionPressed(role: Role, typed: string,
                        autocomplete: AutocompleteRequest -> AutocompleteReply, index: nat)
    | PredictPressed(geocoder: string -> GeocodeReply, fareApi: FareRequest -> FareReply,
                     pickupDatetime: string, passengers: PassengerCount)

  function Step(s: State, a: Action): (t: State) {
    match a
    case ChangePressed(role) => Change(s, role)
    case SuggestionPressed(role, typed, autocomplete, index) => Select(s, role, typed, autocomplete, index)
    case PredictPressed(geocoder, fareApi, when, passengers) =>
      Predict(s, geocoder, fareApi, when, passengers).state
  }

  function Run(s: State, actions: seq<Action>): (t: State)
    decreases |actions|
  {
    if actions == [] then s else Run(Step(s, actions[0]), actions[1..])
  }

  /**
   * What every reachable state satisfies: shown results always come with a fare and a
   * route, and the shown route carries the names currently selected; a stored route
   * never has a zero latitude.
   */
  predicate Consistent(s: State) {
    && (s.mapData.Some? ==> s.mapData.value.pickupLat != 0.0 && s.mapData.value.dropoffLat != 0.0)
    && (s.showResults ==>
          && IsChosen(s.pickupFinal) && IsChosen(s.dropoffFinal)
          && s.fareResult.Some? && s.mapData.Some?
          && s.mapData.value.pickupName == s.pickupFinal.value
          && s.mapData.value.dropoffName == s.dropoffFinal.value)
  }
}
