# Smart Taxi Fare Predictor — session-state model

The fare page (`app.py`) is a Streamlit form. The user picks a pickup and a dropoff from
address suggestions, then presses "Predict Fare". The page geocodes both places, asks a
fare service for a price, and draws the route with the fare. The only logic of its own is
the state kept in `st.session_state` across reruns, plus two helpers that extract data from
provider replies. This project models that logic and proves what it guarantees.

- `wrappers.dfy` (`Wrappers`): `Option` stands for Python's `None`-or-value. `Call`
  stands for a call that may raise an exception nobody catches.
- `services.dfy` (`Services`): `autocomplete_place_nyc` and `get_coordinates` are pure
  functions. Each HTTP round trip is a provider function passed in as a parameter. It maps
  the request that would be sent to the reply that comes back. The file also holds the
  fare request and reply types.
- `form.dfy` (`Form`): the five session fields as a value `State`. It has one transition
  per button (`Change`, `Select`, `Predict`), the display gate `ResultsDisplayed`, and
  whole sessions as `Run` over a sequence of `Action`s. `Consistent` is the invariant that
  every reachable state keeps.
- `properties.dfy` (`FormProperties`): lemmas about single transitions and whole sessions.
- `session.dfy` (`App`): the class `Session`. Its fields are the session state, and each
  button is a method that assigns them in place. Each method is proved to agree with the
  matching `Form` transition and to keep `Valid()`.

The code's truthiness tests are modelled exactly:
- A selected name counts only when it is present and non-empty.
- A latitude or a fare counts only when it is present and non-zero.
- The stored route is a dictionary with six keys, so it is truthy whenever it is present.

A press of a button that the run does not render has no effect. This covers a "Change"
button with no selection, and a suggestion index beyond the current list. Pickup and
dropoff share one implementation through `Role`. The dropoff handlers (`app.py:100-121`)
mirror the pickup ones that are cited below.

## Model

| member | source | states |
|---|---|---|
| `Services.Descriptions` | app.py:47 | the comprehension succeeds exactly when every prediction has a `description`; it then returns them one for one, in provider order |
| `Services.AutocompletePlaceNyc` | app.py:31-49 | text shorter than 2 characters gives `[]` whatever the provider would say, so no request is needed; otherwise the provider is asked for the typed text with the fixed New York centre and 50 km radius, and the result is the descriptions in provider order; a failed call, a missing `predictions` key or a prediction without `description` gives `[]` |
| `Services.GetCoordinates` | app.py:55-63 | raises exactly when the geocoding call fails; otherwise returns the first result's position, or `(None, None)` when `results` is empty or missing |
| `Form.Predict` | app.py:142-180 | never changes the selections; a press that sends no fare request leaves the state as it was; once the request is sent, the route of the geocoded positions and current names is stored; a `fare` in the reply stores it and sets the flag; a failed or fare-less reply keeps the old fare and flag |
| `FormProperties.InitialState` | app.py:17-26 | a new session has no selections, no fare, no route and the flag down; it already satisfies the invariant and shows nothing |
| `FormProperties.ChangeClearsSelection` | app.py:72-75 | "Change" clears that role's selection and the flag; it keeps the other selection, the fare and the route; with no selection there is no button, so nothing changes |
| `FormProperties.SelectTakesCurrentSuggestion` | app.py:83-91 | with the role unselected, at least 2 typed characters and the index in range, the role's selection becomes entry `index` of the list fetched for the typed text; the other role, the flag, the fare and the route never change; when the guard fails the state is unchanged |
| `FormProperties.SelectedNameWasSuggested` | app.py:86-90 | a selection that changes the role's value needs an unselected role and at least 2 typed characters; the new value is an element of the current suggestion list |
| `FormProperties.PredictNeedsBothSelections` | app.py:143-144 | the missing-selection message appears exactly when either selection is falsy, and nothing changes then |
| `FormProperties.PredictGeocodeGate` | app.py:147-151 | the fare request is sent exactly when both geocodings return and both latitudes are truthy; it carries the geocoded positions; an exception or a falsy latitude leaves the state unchanged |
| `FormProperties.FareKeyDecides` | app.py:176-180 | after the request, the result is stored exactly when the reply has a `fare` key, and the stored value is that fare |
| `FormProperties.FareFailureReplacesRouteOnly` | app.py:154-180 | a fare call that raises or answers without `fare` still replaces the route; everything else keeps its old value |
| `FormProperties.SameNameSameRoute` | app.py:54-55 | geocoding depends only on the name, so equal pickup and dropoff names give equal positions in the request |
| `FormProperties.ZeroFareNeverDisplayed` | app.py:185 | a stored fare of `0.0`, or no fare at all, is never displayed |
| `FormProperties.StepPreservesConsistent` | app.py:70-180 | every button press keeps the invariant: when the flag is up there is a fare and a route, and the route's names are the current selections; a stored route never has a zero latitude |
| `FormProperties.RunPreservesConsistent` | app.py:70-180 | any sequence of presses keeps the invariant |
| `FormProperties.DisplayedRouteIsCurrent` | app.py:185-203 | in every session, displayed results show the route under the names currently selected |
| `FormProperties.ResultsReturnOnlyThroughPredict` | app.py:176-178 | once the flag is down, it comes back only through a press of "Predict Fare" |
| `FormProperties.TimesSquareScenario` | app.py:83-91 | typing "Times Sq" and picking the one suggestion makes it the pickup |
| `FormProperties.FareScenario` | app.py:154-178 | a reply `{"fare": 23.50}` is stored and displayed with the geocoded route |
| `App.Session.constructor` | app.py:17-26 | all five fields start empty, with the flag down |
| `App.Session.PressChange` | app.py:72-75 | moves the object as `Form.Change` does: that role's selection and the flag are cleared, and the fare and route stay |
| `App.Session.PressSuggestion` | app.py:88-91 | a loop over the rendered suggestion buttons stores the pressed entry, exactly as `Form.Select`; flag, fare and route stay |
| `App.Session.PressPredict` | app.py:142-180 | moves the object and reports the outcome exactly as `Form.Predict`; a stored fare raises the flag |
| `App.Session.RenderResults` | app.py:185-212 | the results block is drawn exactly when the flag, the route and a non-zero fare are all present; it shows the stored route and fare, and the route's names are the current selections |

## Left out

- Page layout, markdown, success, warning and error messages, spinners and `st.rerun`
  (app.py:11-12, 68-146). Each button press is one method call, and `PredictOutcome` says
  which message the user sees.
- The HTTP calls and JSON decoding (app.py:45-46, 58-59, 173-174). Each reply is a
  parameter. A failure of any of them is one reply variant.
- Non-string descriptions and non-list `predictions` are left out: replies are assumed to
  be shaped as the datatypes say.
- StepPreservesConsistent: a `fare` value is assumed to be a number. In the code a reply
  `{"fare": null}` (app.py:176-178) raises the flag with `fare_result` set to `None`. The
  invariant's "flag up implies a fare is present" part therefore rests on that assumption.
  The display gate still hides such a result.
- The `@st.cache_data` memoisation (app.py:54). Within one press, geocoding is a function
  of the place name, so equal names give equal positions. Each press gets its own geocoder,
  though. Reuse of an earlier press's returned coordinates is not modelled, so the model
  allows more than the code does: two presses with unchanged names may store different
  routes. Caching across sessions and re-queries after an exception are not modelled either.
- The API key lookups (app.py:9, 14). They are configuration and secrets.
- Building the folium map, the midpoint and the `:.2f` fare format (app.py:186-212).
  These are floating-point rendering. `RenderResults` returns the data that would be drawn.
- The date and time widgets, `datetime.combine` and `strftime` (app.py:131-135, 166). The
  formatted timestamp is a parameter. The 1 to 8 passenger bound of the number widget
  (app.py:136) is the type `PassengerCount`.
- The text-input widget values themselves (the `pickup_input` and `dropoff_input` keys).
  The typed text is a parameter of the suggestion press. Typing alone changes none of the
  five modelled fields.
