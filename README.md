# Ezflights front end: view state of the flight screens

This project models the client-side state handling of two screens of a
flight-booking web front end, and proves properties of that model.

- **Flight detail** (`FlightDetails`, from `src/components/FlightDetailsCard.js`).
  The component keeps five pieces of local state: the seat `counter`, the
  booking overlay flag `isVisible`, the error flag `errorFound`, the message
  `errorMsg` and the last successfully fetched `flightData`. They change on
  five kinds of events:
  - the `>` seat control, which adds a seat up to 9;
  - the `<` seat control, which removes a seat down to 1;
  - the Select button, a three-way gate on the signed-in user and whether
    their status is "Active";
  - the effect that copies a successful query response into `flightData`;
  - the render-time rule that a failed query forces the error flag on.

  Each transition is a function on the `DetailState` datatype. The class
  `FlightDetailsCard` has the same fields, and its methods are proved to
  update them as those functions say. The values derived while rendering are
  pure functions: the total cost (`price * counter`), the display date (the
  locale string split on `","` with its first two pieces joined), and the
  props handed to the booking overlay.
- **Flight list** (`FlightsList`, from `src/pages/FlightsListPage/Flights.js`).
  The query-string pairs are folded into a `params` dictionary by a loop;
  a repeated key keeps its last value. The search URL is built from three
  entries of that dictionary. One effect instance sets an `isSubscribed`
  flag when it starts and clears it on cleanup. A delivered response is
  applied only while the flag is set and only when it reports `success`.
  The screen renders one card per element of `Items`, in the order received.
- **Shared pieces**. `FlightService` holds the response envelope
  `{success, data}`, the flight summary and the user. `Strings` holds
  JavaScript's `split` with a one-character separator, and `join`, which
  undoes it.

A JavaScript `undefined` is `None`. Where the source interpolates a
missing value into a string, the model writes `"undefined"`: a missing
query parameter in the URL, and a missing second piece of the date.

The model follows the code in these places, where a reader might expect
otherwise:
- The seat controls do nothing at 9 (increment) and at 1 (decrement).
- Select flips `errorFound`; it does not set it to true.
- The display date keeps the text around the comma exactly as formatted.
  For `"Thu, 4 Jan"` this gives `"Thu 4 Jan"`, with the space after the
  comma kept.
- Stale responses are suppressed by a boolean flag that belongs to each
  effect instance, not by a generation counter.

## Model

| member | source | states |
|---|---|---|
| `Strings.IndexOf` | src/components/FlightDetailsCard.js:80 | the position found holds the separator and no earlier position does |
| `Strings.Split` | src/components/FlightDetailsCard.js:80 | `split(",")` returns at least one piece; no piece contains the separator; joining the pieces gives back the input |
| `Strings.SplitJoin` | src/components/FlightDetailsCard.js:80 | splitting undoes joining when no piece contains the separator, so the split pieces are unique |
| `FlightDetails.Increment` | src/components/FlightDetailsCard.js:45-49 | the counter grows by exactly one iff it was below 9 and is otherwise unchanged; the range [1, 9] is kept; no other field changes |
| `FlightDetails.Decrement` | src/components/FlightDetailsCard.js:50-54 | the counter shrinks by exactly one iff it was above 1 and is otherwise unchanged; the range [1, 9] is kept; no other field changes |
| `FlightDetails.Book` | src/components/FlightDetailsCard.js:55-65 | the error flag flips iff the user is absent or not "Active"; the overlay flag flips iff the user is "Active"; the message is the sign-in text with no user and the confirm-email text for a non-Active user, and is kept for an Active user; counter and flight are kept |
| `FlightDetails.ApplyData` | src/components/FlightDetailsCard.js:32-36 | a response with `success` replaces `flightData` with its `data`; any other response, or none, leaves the whole state unchanged; only `flightData` can change |
| `FlightDetails.ApplyStatus` | src/components/FlightDetailsCard.js:67-72 | when the query is not loading and has failed, the error flag is on afterwards; the state is unchanged exactly when loading, not failed, or already flagged; only the error flag can change |
| `FlightDetails.RunKeepsSeatsInRange` | src/components/FlightDetailsCard.js:15-54 | from any state whose counter is in [1, 9], every sequence of events ends with the counter still in [1, 9] |
| `FlightDetails.SeatsInRangeFromInitial` | src/components/FlightDetailsCard.js:15-54 | starting from the initial count of 1, the counter stays in [1, 9] under any sequence of events |
| `FlightDetails.RunWithoutSeatEventsKeepsCounter` | src/components/FlightDetailsCard.js:32-72 | events other than the two seat controls never change the counter |
| `FlightDetails.IncrementDecrementCancel` | src/components/FlightDetailsCard.js:45-54 | below 9, increment then decrement gives back the same state |
| `FlightDetails.DecrementIncrementCancel` | src/components/FlightDetailsCard.js:45-54 | above 1, decrement then increment gives back the same state |
| `FlightDetails.BookTwice` | src/components/FlightDetailsCard.js:55-65 | two Selects by the same user restore both flags; an Active user gets the same state back; otherwise only the message stays set |
| `FlightDetails.TotalCost` | src/components/FlightDetailsCard.js:82 | a total exists iff a flight has been fetched; with a seat count in [1, 9] and a non-negative fare it lies between one and nine fares (its value is pinned by `IncrementAddsOneFare` and `TotalCostDependsOnFareAndSeats`) |
| `FlightDetails.TotalCostWithinSeatBounds` | src/components/FlightDetailsCard.js:82 | with a flight present and a non-negative fare, the total lies between one fare and nine fares |
| `FlightDetails.IncrementAddsOneFare` | src/components/FlightDetailsCard.js:82 | below 9 seats, one more seat raises the total by exactly one fare |
| `FlightDetails.TotalCostDependsOnFareAndSeats` | src/components/FlightDetailsCard.js:82 | two states with the same fare and seat count have the same total |
| `FlightDetails.DisplayDate` | src/components/FlightDetailsCard.js:80-81 | a formatted string with a comma gives a date with no comma; one without a comma gives the whole string followed by "undefined" (the pieces are described by `DisplayDateJoinsFirstTwoPieces` and `DisplayDateOneComma`) |
| `FlightDetails.Date` | src/components/FlightDetailsCard.js:75-81 | a date exists iff a flight has been fetched, and it is the display form of the locale string of the flight's arrival time |
| `FlightDetails.DisplayDateJoinsFirstTwoPieces` | src/components/FlightDetailsCard.js:75-81 | given a comma, the date is the text before the first comma followed by the text after it, up to the next comma or the end; the result holds no comma |
| `FlightDetails.DisplayDateOneComma` | src/components/FlightDetailsCard.js:75-81 | with exactly one comma, the date is the formatted string with that comma removed and nothing else altered |
| `FlightDetails.DisplayDateAroundComma` | src/components/FlightDetailsCard.js:75-81 | the comma-free texts before and after a single comma are written next to each other |
| `FlightDetails.DisplayDateNoComma` | src/components/FlightDetailsCard.js:80-81 | with no comma, the missing second piece is written as "undefined" after the whole string |
| `FlightDetails.DisplayDateExample` | src/components/FlightDetailsCard.js:75-81 | "Thu, 4 Jan" is shown as "Thu 4 Jan" |
| `FlightDetails.Render` | src/components/FlightDetailsCard.js:133-151 | a loading query shows only the loading indicator; otherwise the booking overlay is shown iff the overlay flag is set, with the seat count and the total cost, and the error overlay is shown iff the error flag is set, with the current message |
| `FlightDetails.SelectOpensBookingWithPayload` | src/components/FlightDetailsCard.js:133-149 | an Active user's Select opens the overlay with its whole payload: the seat count, `price * counter`, the user, `getDuration` of the departure and arrival times, `getTimeIST` of each time, the display date of the arrival time, and the flight's id and cities; the error overlay is unchanged |
| `FlightDetails.SelectSignedOutShowsSignInMessage` | src/components/FlightDetailsCard.js:56-58 | with no overlay open, a signed-out Select shows only the error overlay, with the sign-in message |
| `FlightDetails.ThreeSeatsAtFiveThousand` | src/components/FlightDetailsCard.js:73-83 | a fetched fare of 5000 and two increments from the initial count give 3 seats and a total of 15000 in the booking overlay |
| `FlightDetails.FlightDetailsCard.constructor` | src/components/FlightDetailsCard.js:14-19 | the initial state is 1 seat, both flags off, an empty message and no flight |
| `FlightDetails.FlightDetailsCard.IncrementSeats` | src/components/FlightDetailsCard.js:45-49 | updates the fields as `Increment` says and keeps the counter in [1, 9] |
| `FlightDetails.FlightDetailsCard.DecrementSeats` | src/components/FlightDetailsCard.js:50-54 | updates the fields as `Decrement` says and keeps the counter in [1, 9] |
| `FlightDetails.FlightDetailsCard.HandleBookingModal` | src/components/FlightDetailsCard.js:55-65 | updates the fields as `Book` says |
| `FlightDetails.FlightDetailsCard.OnQueryData` | src/components/FlightDetailsCard.js:32-36 | updates the fields as `ApplyData` says |
| `FlightDetails.FlightDetailsCard.OnQueryStatus` | src/components/FlightDetailsCard.js:67-72 | updates the fields as `ApplyStatus` says |
| `FlightsList.LastValueIsLastOccurrence` | src/pages/FlightsListPage/Flights.js:9-12 | `v` is the value kept for `key` iff some pair `(key, v)` has no later pair for `key` |
| `FlightsList.CollectParams` | src/pages/FlightsListPage/Flights.js:9-12 | after the loop, a key is in `params` iff some pair names it, and it maps to the last value given for it |
| `FlightsList.SearchUrl` | src/pages/FlightsListPage/Flights.js:17-19 | has no contract of its own; `SearchUrlQuery` states the URL's shape and that its query splits back into the three fields |
| `FlightsList.QueryFields` | src/pages/FlightsListPage/Flights.js:17-19 | has no contract of its own; `SearchUrlQuery` states that it is what the URL's query splits into |
| `FlightsList.Param` | src/pages/FlightsListPage/Flights.js:17-19 | has no contract of its own; `SearchUrlQuery` and `FlightsScreen.Start` state which value each field carries, with `"undefined"` for a missing key |
| `FlightsList.SearchUrlQuery` | src/pages/FlightsListPage/Flights.js:17-19 | the URL is the fixed endpoint, `?`, then `date=`, `departureCityId=` and `arrivalCityId=` with `params.departuredate`, `params.departureCityId` and `params.arrivalCityId`, joined by `&` in that order; when no value holds `&`, splitting the query on `&` gives back exactly those three fields |
| `FlightsList.UrlShape` | src/pages/FlightsListPage/Flights.js:17-19 | the template literal is the endpoint, `?` and the three fields joined by `&` |
| `FlightsList.Subscribe` | src/pages/FlightsListPage/Flights.js:15 | the effect's start sets the flag and keeps the screen's data |
| `FlightsList.Unsubscribe` | src/pages/FlightsListPage/Flights.js:27-29 | cleanup clears the flag and keeps the screen's data, and any response delivered afterwards changes nothing |
| `FlightsList.ApplyResponse` | src/pages/FlightsListPage/Flights.js:20-25 | the state changes only when the effect is subscribed and the response parsed and reports success, and then `flightData` becomes its `data`; the flag itself never changes |
| `FlightsList.CleanupSuppressesDeliveries` | src/pages/FlightsListPage/Flights.js:15-29 | after cleanup, any later deliveries to that effect leave the state unchanged |
| `FlightsList.SubscribedShowsLastSuccess` | src/pages/FlightsListPage/Flights.js:20-25 | while subscribed, the screen holds the data of the last successful response, or its earlier data when none succeeded |
| `FlightsList.ApplyAllSplit` | src/pages/FlightsListPage/Flights.js:20-25 | delivering one more response after a run equals a run that includes it |
| `FlightsList.CardsOf` | src/pages/FlightsListPage/Flights.js:35-37 | one card per item, in order, each keyed by the item's `id` and carrying the item |
| `FlightsList.Cards` | src/pages/FlightsListPage/Flights.js:35-37 | exactly one card per element of `Items`, in order and keyed by `id`; no cards when `flightData` or `Items` is missing |
| `FlightsList.OneResultOneCard` | src/pages/FlightsListPage/Flights.js:20-37 | a successful search with one flight "f1" renders exactly one card, keyed "f1" |
| `FlightsList.FlightsScreen.constructor` | src/pages/FlightsListPage/Flights.js:7 | the screen starts with no data and no subscribed effect |
| `FlightsList.FlightsScreen.Start` | src/pages/FlightsListPage/Flights.js:9-19 | sets the flag, and returns the search URL built from the last value given for each query-string key |
| `FlightsList.FlightsScreen.Deliver` | src/pages/FlightsListPage/Flights.js:20-25 | updates the fields as `ApplyResponse` says |
| `FlightsList.FlightsScreen.Cleanup` | src/pages/FlightsListPage/Flights.js:27-29 | clears the flag and changes nothing else |

## Left out

- HTTP and JSON: `fetch`, `apiCall.json()` and react-query's fetching and
  caching (`useQuery`, `keepPreviousData`) are not modelled. A response is
  an input `Envelope`. On the list screen, a failed request or parse is the
  input `None`, which changes nothing; the source only logs it.
- The query's `data`, `isLoading` and `isError` are inputs to the
  detail-screen events. The route `id` that keys the query is not modelled.
- `getDuration` and `getTimeIST` (`src/util/helper` is not part of this
  model) and `toLocaleString("en-IN", …)` are function parameters of
  `Render` and `Date`. `DisplayDate` takes the formatted string as input.
- Rendering: JSX, styling and the header fields (flight number, airports)
  are not modelled. Only the props of the booking and error overlays are
  kept. The internals of `BookingModal`, `ErrorModal`, `SuccessModal` and
  `LoadingModal` are not modelled. This includes the dismissal through
  their `setShow` callbacks and the success overlay's flag
  `isSuccessVisible`, which only `BookingModal` and `SuccessModal` change.
- `navigate(-1)` on Cancel: navigation, no state effect.
- `UserContext`: the current user is an explicit `Option<User>` argument.
- Asynchrony: only the sequential start, deliver and cleanup events of one
  effect instance are modelled. A change of criteria would be a cleanup
  followed by a new start. In-flight requests are not interleaved.
- `FlightsList.FlightsScreen`: the screen's `flightData` and the effect
  closure's `isSubscribed` are fields of one object. In the source the flag
  is a local variable of the effect.
- React's batching of updates: each event sees the state the previous event
  left. Because of this, the guard `counter < 9`, read from the rendered
  value, and the update `prev + 1` use the same count.
- Render: the `{...currentUser}` spread into the booking overlay's props
  (src/components/FlightDetailsCard.js:138-147) is not modelled; the user's
  fields are passed as one `currentUser` prop. Clashes between the user's field names and
  the other prop names are not modelled; in the source a profile field
  spread after `noOfSeats` or `totalCost` and named like it would override
  it, which `Render`'s contract does not allow for.
- `console.log` and `console.error`: logging only.
- Floating-point prices: `price` is an integer, so `totalCost` is exact.
- Query values are put into the URL without encoding. `SearchUrlQuery`
  recovers the three fields only when no value contains `&`.
