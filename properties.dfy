/** What the fare form's transitions guarantee, one call at a time and over whole sessions. */
module FormProperties {
  import opened Wrappers
  import opened Services
  import opened Form

  /** A new session shows nothing and already satisfies the session invariant. */
  lemma InitialState()
    ensures Initial.pickupFinal == None && Initial.dropoffFinal == None
    ensures !Initial.showResults && Initial.fareResult == None && Initial.mapData == None
    ensures Consistent(Initial) && !ResultsDisplayed(Initial)
  {
  }

  /** "Change" clears only the pressed role's selection and the flag; without a selection there is no button. */
  lemma ChangeClearsSelection(s: State, role: Role, other: Role)
    requires other != role
    ensures IsChosen(Final(s, role)) ==>
      && Final(Change(s, role), role) == None
      && !Change(s, role).showResults
      && Final(Change(s, role), other) == Final(s, other)
      && Change(s, role).fareResult == s.fareResult
      && Change(s, role).mapData == s.mapData
    ensures !IsChosen(Final(s, role)) ==> Change(s, role) == s
    ensures !ResultsDisplayed(Change(s, role)) || Change(s, role) == s
  {
  }

  /**
   * A selection is made only by a rendered suggestion button: the role had no selection,
   * at least two characters were typed, and the stored name is the pressed entry of the
   * list fetched for that text. Nothing else changes.
   */
  lemma SelectTakesCurrentSuggestion(s: State, role: Role, other: Role, typed: string,
                                     autocomplete: AutocompleteRequest -> AutocompleteReply, index: nat)
    requires other != role
    ensures var t := Select(s, role, typed, autocomplete, index);
      var suggestions := AutocompletePlaceNyc(typed, autocomplete);
      && (!IsChosen(Final(s, role)) && |typed| >= MinQueryLength && index < |suggestions| ==>
            Final(t, role) == Some(suggestions[index]))
      && Final(t, other) == Final(s, other)
      && t.showResults == s.showResults && t.fareResult == s.fareResult && t.mapData == s.mapData
    ensures (IsChosen(Final(s, role)) || |typed| < MinQueryLength
             || index >= |AutocompletePlaceNyc(typed, autocomplete)|) ==>
      Select(s, role, typed, autocomplete, index) == s
  {
  }

  /** A selection always names an entry of the current suggestion list, never an older one. */
  lemma SelectedNameWasSuggested(s: State, role: Role, typed: string,
                                 autocomplete: AutocompleteRequest -> AutocompleteReply, index: nat)
    requires Final(Select(s, role, typed, autocomplete, index), role) != Final(s, role)
    ensures !IsChosen(Final(s, role)) && |typed| >= MinQueryLength
    ensures Final(Select(s, role, typed, autocomplete, index), role).Some?
    ensures Final(Select(s, role, typed, autocomplete, index), role).value in AutocompletePlaceNyc(typed, autocomplete)
  {
  }

  /** Without both selections "Predict Fare" only shows a message and changes nothing. */
  lemma PredictNeedsBothSelections(s: State, geocoder: string -> GeocodeReply, fareApi: FareRequest -> FareReply,
                                   when: string, passengers: PassengerCount)
    ensures var r := Predict(s, geocoder, fareApi, when, passengers);
      r.outcome.MissingSelection? <==> !IsChosen(s.pickupFinal) || !IsChosen(s.dropoffFinal)
    ensures var r := Predict(s, geocoder, fareApi, when, passengers);
      r.outcome.MissingSelection? ==> r.state == s
  {
  }

  /**
   * The fare service is asked exactly when both selections exist, both geocode without raising
   * and both latitudes are truthy (present and non-zero); the request then carries the geocoded
   * positions. A falsy latitude leaves the state as it was.
   */
  lemma PredictGeocodeGate(s: State, geocoder: string -> GeocodeReply, fareApi: FareRequest -> FareReply,
                           when: string, passengers: PassengerCount)
    requires IsChosen(s.pickupFinal) && IsChosen(s.dropoffFinal)
    ensures var r := Predict(s, geocoder, fareApi, when, passengers);
      var pickup := GetCoordinates(s.pickupFinal.value, geocoder);
      var dropoff := GetCoordinates(s.dropoffFinal.value, geocoder);
      && (r.outcome.GeocodeRaised? <==> pickup.Raised? || dropoff.Raised?)
      && (RequestSent(r.outcome) <==>
            pickup.Returned? && dropoff.Returned?
            && IsNonZero(Latitude(pickup.value)) && IsNonZero(Latitude(dropoff.value)))
      && (RequestSent(r.outcome) ==>
            && Some(Location(r.outcome.request.pickupLatitude, r.outcome.request.pickupLongitude)) == pickup.value
            && Some(Location(r.outcome.request.dropoffLatitude, r.outcome.request.dropoffLongitude)) == dropoff.value)
      && (!RequestSent(r.outcome) ==> r.state == s)
  {
  }

  /** Once the request is sent, the `fare` key alone decides whether the result is stored and shown. */
  lemma FareKeyDecides(s: State, geocoder: string -> GeocodeReply, fareApi: FareRequest -> FareReply,
                       when: string, passengers: PassengerCount)
    ensures var r := Predict(s, geocoder, fareApi, when, passengers);
      RequestSent(r.outcome) ==>
        && (r.outcome.FareStored? <==> fareApi(r.outcome.request).FareBody? && fareApi(r.outcome.request).fare.Some?)
        && (r.outcome.FareStored? ==> r.outcome.fare == fareApi(r.outcome.request).fare.value)
  {
  }

  /**
   * A fare call that raises or answers without `fare` still replaces the stored route, while
   * the previous fare and visibility flag stay as they were.
   */
  lemma FareFailureReplacesRouteOnly(s: State, geocoder: string -> GeocodeReply, fareApi: FareRequest -> FareReply,
                                     when: string, passengers: PassengerCount)
    requires var r := Predict(s, geocoder, fareApi, when, passengers);
      RequestSent(r.outcome) && !r.outcome.FareStored?
    ensures var r := Predict(s, geocoder, fareApi, when, passengers);
      r.state == s.(mapData := Some(RouteOf(r.outcome.request, s.pickupFinal.value, s.dropoffFinal.value)))
  {
  }

  /** Geocoding is a function of the name: two equal selections give the same two positions. */
  lemma SameNameSameRoute(s: State, geocoder: string -> GeocodeReply, fareApi: FareRequest -> FareReply,
                          when: string, passengers: PassengerCount)
    requires s.pickupFinal == s.dropoffFinal
    ensures var r := Predict(s, geocoder, fareApi, when, passengers);
      RequestSent(r.outcome) ==>
        r.outcome.request.pickupLatitude == r.outcome.request.dropoffLatitude &&
        r.outcome.request.pickupLongitude == r.outcome.request.dropoffLongitude
  {
  }

  /** A zero fare is stored but never displayed. */
  lemma ZeroFareNeverDisplayed(s: State)
    requires s.fareResult == Some(0.0) || s.fareResult == None
    ensures !ResultsDisplayed(s)
  {
  }

  /** Every button press keeps the session invariant. */
  lemma StepPreservesConsistent(s: State, a: Action)
    requires Consistent(s)
    ensures Consistent(Step(s, a))
  {
  }

  lemma {:induction false} RunPreservesConsistent(s: State, actions: seq<Action>)
    requires Consistent(s)
    ensures Consistent(Run(s, actions))
    decreases |actions|
  {
    if actions != [] {
      StepPreservesConsistent(s, actions[0]);
      RunPreservesConsistent(Step(s, actions[0]), actions[1..]);
    }
  }

  /** In every session, displayed results show the route of the locations currently selected. */
  lemma DisplayedRouteIsCurrent(actions: seq<Action>)
    ensures var s := Run(Initial, actions);
      ResultsDisplayed(s) ==>
        && IsChosen(s.pickupFinal) && IsChosen(s.dropoffFinal)
        && s.mapData.value.pickupName == s.pickupFinal.value
        && s.mapData.value.dropoffName == s.dropoffFinal.value
  {
    RunPreservesConsistent(Initial, actions);
  }

  /** Once hidden, results come back only through a press of "Predict Fare". */
  lemma {:induction false} ResultsReturnOnlyThroughPredict(s: State, actions: seq<Action>)
    requires !s.showResults
    ensures Run(s, actions).showResults ==> exists k :: 0 <= k < |actions| && actions[k].PredictPressed?
    decreases |actions|
  {
    if actions != [] && Run(s, actions).showResults {
      var a := actions[0];
      if !a.PredictPressed? {
        assert !Step(s, a).showResults by {
          if a.SuggestionPressed? {
            SelectTakesCurrentSuggestion(s, a.role, if a.role == Pickup then Dropoff else Pickup,
                                         a.typed, a.autocomplete, a.index);
          }
        }
        ResultsReturnOnlyThroughPredict(Step(s, a), actions[1..]);
        var k :| 0 <= k < |actions[1..]| && actions[1..][k].PredictPressed?;
        assert actions[k + 1].PredictPressed?;
      }
    }
  }

  /** Typing "Times Sq" and picking the single suggestion selects it as the pickup. */
  lemma TimesSquareScenario(autocomplete: AutocompleteRequest -> AutocompleteReply)
    requires autocomplete(NycQuery("Times Sq")) ==
      AutocompleteBody(Some([Prediction(Some("Times Square, New York, NY, USA"))]))
    ensures Select(Initial, Pickup, "Times Sq", autocomplete, 0).pickupFinal ==
      Some("Times Square, New York, NY, USA")
  {
    assert AutocompletePlaceNyc("Times Sq", autocomplete) == ["Times Square, New York, NY, USA"];
  }

  /** A fare reply of 23.50 is stored and displayed with the geocoded route. */
  lemma FareScenario(geocoder: string -> GeocodeReply, fareApi: FareRequest -> FareReply)
    requires geocoder("Times Square") == GeocodeBody(Some([Location(40.758, -73.9855)]))
    requires geocoder("JFK Airport") == GeocodeBody(Some([Location(40.6413, -73.7781)]))
    requires fareApi(FareRequest("2024-01-15 14:30:00", -73.9855, 40.758, -73.7781, 40.6413, 2)) ==
      FareBody(Some(23.50))
    ensures var s := Initial.(pickupFinal := Some("Times Square"), dropoffFinal := Some("JFK Airport"));
      var t := Predict(s, geocoder, fareApi, "2024-01-15 14:30:00", 2).state;
      t.fareResult == Some(23.50) && ResultsDisplayed(t)
      && t.mapData == Some(MapData(40.758, -73.9855, 40.6413, -73.7781, "Times Square", "JFK Airport"))
  {
  }
}
