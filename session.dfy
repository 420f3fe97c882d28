/**
 * The page's `st.session_state` as an object: five fields that the button handlers
 * assign in place. Each handler is proved to move the object exactly as the
 * corresponding transition of `Form` moves the state value.
 */
module App {
  import opened Wrappers
  import opened Services
  import opened Form

  /** What the results block draws: the two markers and line of the route, and the fare. */
  datatype ResultView = ResultView(route: MapData, fare: real)

  class Session {
    var pickupFinal: Option<string>
    var dropoffFinal: Option<string>
    var showResults: bool
    var fareResult: Option<real>
    var mapData: Option<MapData>

    /** The five fields as a value. */
    function Value(): (s: State)
      reads this
    {
      State(pickupFinal, dropoffFinal, showResults, fareResult, mapData)
    }

    ghost predicate Valid()
      reads this
    {
      Consistent(Value())
    }

    /** The first run of a session sets every field that is not yet present. */
    constructor ()
      ensures Valid()
      ensures pickupFinal == None && dropoffFinal == None
      ensures !showResults && fareResult == None && mapData == None
    {
      pickupFinal := None;
      dropoffFinal := None;
      showResults := false;
      fareResult := None;
      mapData := None;
    }

    /** The "Change Pickup" / "Change Dropoff" button, present only while that role is selected. */
    method PressChange(role: Role)
      requires Valid()
      modifies this
      ensures Valid()
      ensures Value() == Change(old(Value()), role)
      ensures old(IsChosen(Final(Value(), role))) ==>
        Final(Value(), role) == None && !showResults
      ensures fareResult == old(fareResult) && mapData == old(mapData)
      ensures role == Pickup ==> dropoffFinal == old(dropoffFinal)
      ensures role == Dropoff ==> pickupFinal == old(pickupFinal)
    {
      match role
      case Pickup =>
        if IsChosen(pickupFinal) {
          pickupFinal := None;
          showResults := false;
        }
      case Dropoff =>
        if IsChosen(dropoffFinal) {
          dropoffFinal := None;
          showResults := false;
        }
    }

    /**
     * A press of suggestion button number `pressed` under the role's text box. The run
     * fetches the suggestions for `typed` and renders one button per entry; the pressed
     * one, if rendered, stores its entry.
     */
    method PressSuggestion(role: Role, typed: string,
                           autocomplete: AutocompleteRequest -> AutocompleteReply, pressed: nat)
      requires Valid()
      modifies this
      ensures Valid()
      ensures Value() == Select(old(Value()), role, typed, autocomplete, pressed)
      ensures showResults == old(showResults) && fareResult == old(fareResult) && mapData == old(mapData)
    {
      if IsChosen(Final(Value(), role)) || |typed| < MinQueryLength {
        return;
      }
      var suggestions := AutocompletePlaceNyc(typed, autocomplete);
      var i := 0;
      while i < |suggestions|
        invariant i <= |suggestions| && i <= pressed
        invariant Value() == old(Value())
      {
        if i == pressed {
          match role {
            case Pickup => pickupFinal := Some(suggestions[i]);
            case Dropoff => dropoffFinal := Some(suggestions[i]);
          }
          return;
        }
        i := i + 1;
      }
    }

    /**
     * The "Predict Fare" button. An exception from geocoding ends the run before anything is
     * stored; the route is stored before the fare reply is inspected.
     */
    method PressPredict(geocoder: string -> GeocodeReply, fareApi: FareRequest -> FareReply,
                        pickupDatetime: string, passengers: PassengerCount)
      returns (outcome: PredictOutcome)
      requires Valid()
      modifies this
      ensures Valid()
      ensures Predicted(Value(), outcome) == Predict(old(Value()), geocoder, fareApi, pickupDatetime, passengers)
      ensures pickupFinal == old(pickupFinal) && dropoffFinal == old(dropoffFinal)
      ensures outcome.FareStored? ==> fareResult == Some(outcome.fare) && showResults
    {
      if !IsChosen(pickupFinal) || !IsChosen(dropoffFinal) {
        return MissingSelection;
      }
      var pickup := GetCoordinates(pickupFinal.value, geocoder);
      var dropoff := GetCoordinates(dropoffFinal.value, geocoder);
      if pickup.Raised? || dropoff.Raised? {
        return GeocodeRaised;
      }
      if !IsNonZero(Latitude(pickup.value)) || !IsNonZero(Latitude(dropoff.value)) {
        return CoordinatesNotFound;
      }
      var p, d := pickup.value.value, dropoff.value.value;
      mapData := Some(MapData(p.lat, p.lng, d.lat, d.lng, pickupFinal.value, dropoffFinal.value));
      var request := FareRequest(pickupDatetime, p.lng, p.lat, d.lng, d.lat, passengers);
      match fareApi(request)
      case FareFailed =>
        outcome := FareRaised(request);
      case FareBody(None) =>
        outcome := NoFare(request);
      case FareBody(Some(fare)) =>
        fareResult := Some(fare);
        showResults := true;
        outcome := FareStored(request, fare);
    }

    /**
     * The persistent results block: drawn only when the flag, the route and the fare are
     * all truthy, and then it shows the stored route under the currently selected names.
     */
    method RenderResults() returns (view: Option<ResultView>)
      requires Valid()
      ensures view.Some? <==> showResults && mapData.Some? && fareResult.Some? && fareResult.value != 0.0
      ensures view.Some? ==> view.value.route == mapData.value && view.value.fare == fareResult.value
      ensures view.Some? ==>
        Some(view.value.route.pickupName) == pickupFinal && Some(view.value.route.dropoffName) == dropoffFinal
    {
      if showResults && mapData.Some? && IsNonZero(fareResult) {
        view := Some(ResultView(mapData.value, fareResult.value));
      } else {
        view := None;
      }
    }
  }
}
