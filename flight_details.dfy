/**
 * The flight-detail screen: its local view state (seat counter, booking
 * overlay flag, error flag and message, the last successfully fetched flight),
 * the transitions that user actions and query results apply to it, and the
 * values derived from it while rendering (total cost, display date, the
 * booking overlay's props).
 *
 * Each transition is a function on `DetailState`; the class `FlightDetailsCard`
 * holds the same five fields as the component and its methods update them as
 * those functions say.
 */
module FlightDetails {
  import opened FlightService
  import Strings

  const MinSeats: int := 1
  const MaxSeats: int := 9
  const SignInMessage: string := "Please Sign in before booking a flight"
  const ConfirmEmailMessage: string := "Please confirm your email address"

  datatype DetailState = DetailState(
    counter: int,
    isVisible: bool,
    errorFound: bool,
    errorMsg: string,
    flightData: Option<FlightSummary>)

  /** The state a freshly mounted screen starts in. */
  const Initial: DetailState := DetailState(1, false, false, "", None)

  predicate SeatsInRange(counter: int) {
    MinSeats <= counter <= MaxSeats
  }

  predicate IsActive(currentUser: Option<User>) {
    currentUser.Some? && currentUser.value.status == ActiveStatus
  }

  // ---------------------------------------------------------------------------
  // Transitions

  /** The `>` control: one more seat, unless nine are already chosen. */
  function Increment(s: DetailState): (r: DetailState)
    ensures SeatsInRange(s.counter) ==> SeatsInRange(r.counter)
    ensures r.counter == s.counter + 1 <==> s.counter < MaxSeats
    ensures r == s.(counter := r.counter)
    ensures r.counter == s.counter || r.counter == s.counter + 1
  {
    if s.counter < MaxSeats then s.(counter := s.counter + 1) else s
  }

  /** The `<` control: one seat fewer, unless only one is chosen. */
  function Decrement(s: DetailState): (r: DetailState)
    ensures SeatsInRange(s.counter) ==> SeatsInRange(r.counter)
    ensures r.counter == s.counter - 1 <==> s.counter > MinSeats
    ensures r == s.(counter := r.counter)
    ensures r.counter == s.counter || r.counter == s.counter - 1
  {
    if s.counter > MinSeats then s.(counter := s.counter - 1) else s
  }

  /**
   * The Select action. A signed-out visitor or a user whose status is not
   * "Active" gets the matching message and the error flag flipped; an active
   * user flips the booking overlay. Nothing else changes.
   */
  function Book(s: DetailState, currentUser: Option<User>): (r: DetailState)
    ensures r.errorFound == !s.errorFound <==> !IsActive(currentUser)
    ensures r.isVisible == !s.isVisible <==> IsActive(currentUser)
    ensures currentUser.None? ==> r.errorMsg == SignInMessage
    ensures currentUser.Some? && !IsActive(currentUser) ==> r.errorMsg == ConfirmEmailMessage
    ensures IsActive(currentUser) ==> r.errorMsg == s.errorMsg
    ensures r.counter == s.counter && r.flightData == s.flightData
  {
    if currentUser.None? then
      s.(errorMsg := SignInMessage, errorFound := !s.errorFound)
    else if currentUser.value.status != ActiveStatus then
      s.(errorMsg := ConfirmEmailMessage, errorFound := !s.errorFound)
    else
      s.(isVisible := !s.isVisible)
  }

  /**
   * The effect that watches the query's data: a response whose `success` holds
   * replaces the flight (with whatever its `data` is); any other response, or
   * none yet, leaves the state alone.
   */
  function ApplyData(s: DetailState, data: Option<Envelope<FlightSummary>>): (r: DetailState)
    ensures data.Some? && data.value.success ==> r.flightData == data.value.data
    ensures !(data.Some? && data.value.success) ==> r == s
    ensures r == s.(flightData := r.flightData)
  {
    if data.Some? && data.value.success then s.(flightData := data.value.data) else s
  }

  /**
   * What a render does with the query's status: while loading it returns the
   * loading indicator before anything else; otherwise a failed query forces
   * the error flag on.
   */
  function ApplyStatus(s: DetailState, isLoading: bool, isError: bool): (r: DetailState)
    ensures !isLoading && isError ==> r.errorFound
    ensures r == s <==> isLoading || !isError || s.errorFound
    ensures r == s.(errorFound := r.errorFound)
  {
    if !isLoading && isError then s.(errorFound := true) else s
  }

  // ---------------------------------------------------------------------------
  // Sequences of events

  datatype DetailEvent =
    | IncrementSeats
    | DecrementSeats
    | Select(currentUser: Option<User>)
    | QueryData(data: Option<Envelope<FlightSummary>>)
    | QueryStatus(isLoading: bool, isError: bool)

  function Step(s: DetailState, e: DetailEvent): DetailState {
    match e
    case IncrementSeats => Increment(s)
    case DecrementSeats => Decrement(s)
    case Select(u) => Book(s, u)
    case QueryData(d) => ApplyData(s, d)
    case QueryStatus(l, err) => ApplyStatus(s, l, err)
  }

  /** The state after applying `events` in order. */
  function Run(s: DetailState, events: seq<DetailEvent>): DetailState
    decreases |events|
  {
    if events == [] then s else Run(Step(s, events[0]), events[1..])
  }

  /** Whatever the screen goes through, the seat count stays between one and nine. */
  lemma {:induction false} RunKeepsSeatsInRange(s: DetailState, events: seq<DetailEvent>)
    requires SeatsInRange(s.counter)
    ensures SeatsInRange(Run(s, events).counter)
    decreases |events|
  {
    if events != [] {
      var t := Step(s, events[0]);
      assert SeatsInRange(t.counter);
      RunKeepsSeatsInRange(t, events[1..]);
    }
  }

  lemma SeatsInRangeFromInitial(events: seq<DetailEvent>)
    ensures SeatsInRange(Run(Initial, events).counter)
  {
    RunKeepsSeatsInRange(Initial, events);
  }

  /** Only the seat controls move the counter. */
  lemma {:induction false} RunWithoutSeatEventsKeepsCounter(s: DetailState, events: seq<DetailEvent>)
    requires forall k :: 0 <= k < |events| ==> !events[k].IncrementSeats? && !events[k].DecrementSeats?
    ensures Run(s, events).counter == s.counter
    decreases |events|
  {
    if events != [] {
      assert !events[0].IncrementSeats? && !events[0].DecrementSeats?;
      RunWithoutSeatEventsKeepsCounter(Step(s, events[0]), events[1..]);
    }
  }

  /** Away from the bounds, one step up and one step down cancel out. */
  lemma IncrementDecrementCancel(s: DetailState)
    requires MinSeats <= s.counter < MaxSeats
    ensures Decrement(Increment(s)) == s
  {
  }

  lemma DecrementIncrementCancel(s: DetailState)
    requires MinSeats < s.counter <= MaxSeats
    ensures Increment(Decrement(s)) == s
  {
  }

  /**
   * Because the gate flips flags instead of setting them, pressing Select
   * twice as the same user restores both flags; only the message stays set.
   */
  lemma BookTwice(s: DetailState, currentUser: Option<User>)
    ensures Book(Book(s, currentUser), currentUser)
      == if IsActive(currentUser) then s else s.(errorMsg := Book(s, currentUser).errorMsg)
  {
  }

  // ---------------------------------------------------------------------------
  // Values derived while rendering

  /** `flightData.price * counter`, present only when a flight is. */
  function TotalCost(s: DetailState): (cost: Option<int>)
    ensures cost.Some? <==> s.flightData.Some?
    ensures cost.Some? && SeatsInRange(s.counter) && s.flightData.value.price >= 0 ==>
      s.flightData.value.price <= cost.value <= MaxSeats * s.flightData.value.price
  {
    if s.flightData.Some? then Some(s.flightData.value.price * s.counter) else None
  }

  /**
   * The display date: the locale-formatted string split on commas, with the
   * first two pieces written next to each other. JavaScript renders a missing
   * second piece as "undefined".
   */
  function DisplayDate(formatted: string): (date: string)
    ensures ',' in formatted ==> ',' !in date
    ensures ',' !in formatted ==> date == formatted + Undefined
  {
    var pieces := Strings.Split(formatted, ',');
    pieces[0] + if |pieces| >= 2 then pieces[1] else Undefined
  }

  /** The display date of the current flight, given the locale formatting of a timestamp. */
  function Date(s: DetailState, localeDate: int -> string): (date: Option<string>)
    ensures date.Some? <==> s.flightData.Some?
    ensures date.Some? ==> date.value == DisplayDate(localeDate(s.flightData.value.arrivalTime))
  {
    if s.flightData.Some? then Some(DisplayDate(localeDate(s.flightData.value.arrivalTime))) else None
  }

  lemma TotalCostWithinSeatBounds(s: DetailState)
    requires SeatsInRange(s.counter) && s.flightData.Some? && s.flightData.value.price >= 0
    ensures TotalCost(s).Some?
    ensures s.flightData.value.price <= TotalCost(s).value <= MaxSeats * s.flightData.value.price
  {
  }

  /** Each extra seat adds exactly one fare. */
  lemma IncrementAddsOneFare(s: DetailState)
    requires s.flightData.Some? && s.counter < MaxSeats
    ensures TotalCost(Increment(s)) == Some(TotalCost(s).value + s.flightData.value.price)
  {
  }

  /** The total depends on the fare and the seat count only. */
  lemma TotalCostDependsOnFareAndSeats(s: DetailState, t: DetailState)
    requires s.flightData.Some? && t.flightData.Some?
    requires s.flightData.value.price == t.flightData.value.price && s.counter == t.counter
    ensures TotalCost(s) == TotalCost(t)
  {
  }

  /**
   * With a comma at `i`, the display date is the text before it followed by the
   * text after it up to the next comma (or the end): the comma is dropped and
   * nothing else of the kept text is altered.
   */
  lemma DisplayDateJoinsFirstTwoPieces(formatted: string)
    requires ',' in formatted
    ensures var i := Strings.IndexOf(formatted, ',');
            var rest := formatted[i + 1..];
            DisplayDate(formatted)
              == formatted[..i] + if ',' in rest then rest[..Strings.IndexOf(rest, ',')] else rest
    ensures ',' !in DisplayDate(formatted)
  {
    var i := Strings.IndexOf(formatted, ',');
    var rest := formatted[i + 1..];
    var pieces := Strings.Split(formatted, ',');
    assert pieces[0] == formatted[..i];
    assert pieces[1] == Strings.Split(rest, ',')[0];
    if ',' in rest {
      assert pieces[1] == rest[..Strings.IndexOf(rest, ',')];
    }
  }

  /** With exactly one comma, the display date is the formatted string minus that comma. */
  lemma DisplayDateOneComma(formatted: string, i: nat)
    requires i < |formatted| && formatted[i] == ','
    requires ',' !in formatted[..i] && ',' !in formatted[i + 1..]
    ensures DisplayDate(formatted) == formatted[..i] + formatted[i + 1..]
  {
    assert formatted == formatted[..i] + [','] + formatted[i + 1..];
    DisplayDateAroundComma(formatted[..i], formatted[i + 1..]);
  }

  /** The two comma-free parts around a single comma are written next to each other. */
  lemma DisplayDateAroundComma(before: string, after: string)
    requires ',' !in before && ',' !in after
    ensures DisplayDate(before + [','] + after) == before + after
  {
    Strings.SplitAfterPrefix(before, ',', after);
  }

  /** With no comma at all, the second piece is missing and JavaScript writes "undefined". */
  lemma DisplayDateNoComma(formatted: string)
    requires ',' !in formatted
    ensures DisplayDate(formatted) == formatted + Undefined
  {
  }

  /** The "en-IN" short weekday, day and month rendering, such as "Thu, 4 Jan". */
  lemma DisplayDateExample()
    ensures DisplayDate("Thu, 4 Jan") == "Thu 4 Jan"
  {
    assert "Thu, 4 Jan" == "Thu" + [','] + " 4 Jan";
    assert "Thu 4 Jan" == "Thu" + " 4 Jan";
    DisplayDateAroundComma("Thu", " 4 Jan");
  }

  // ---------------------------------------------------------------------------
  // Overlays

  /** The props the booking overlay receives; `None` where the source passes `undefined`. */
  datatype BookingProps = BookingProps(
    noOfSeats: int,
    totalCost: Option<int>,
    currentUser: Option<User>,
    duration: Option<string>,
    arrivalTime: Option<string>,
    departureTime: Option<string>,
    date: Option<string>,
    flightId: Option<string>,
    arrivalCity: Option<string>,
    departureCity: Option<string>)

  /** What the screen shows: the loading indicator, or the card with its open overlays. */
  datatype View =
    | LoadingView
    | CardView(booking: Option<BookingProps>, errorMessage: Option<string>)

  function Field<T>(flightData: Option<FlightSummary>, f: FlightSummary -> T): Option<T> {
    if flightData.Some? then Some(f(flightData.value)) else None
  }

  /**
   * One render of the screen. The formatting helpers (duration, time of day in
   * IST, locale date) are parameters.
   */
  function Render(
    s: DetailState, isLoading: bool, currentUser: Option<User>,
    getDuration: (int, int) -> string, getTimeIST: int -> string, localeDate: int -> string): (v: View)
    ensures isLoading <==> v.LoadingView?
    ensures v.CardView? ==> (v.booking.Some? <==> s.isVisible)
    ensures v.CardView? ==> v.errorMessage == if s.errorFound then Some(s.errorMsg) else None
    ensures v.CardView? && v.booking.Some? ==>
      v.booking.value.noOfSeats == s.counter && v.booking.value.totalCost == TotalCost(s)
  {
    if isLoading then LoadingView
    else
      var fd := s.flightData;
      var booking :=
        if s.isVisible then
          Some(BookingProps(
            s.counter, TotalCost(s), currentUser,
            Field(fd, (f: FlightSummary) => getDuration(f.departureTime, f.arrivalTime)),
            Field(fd, (f: FlightSummary) => getTimeIST(f.arrivalTime)),
            Field(fd, (f: FlightSummary) => getTimeIST(f.departureTime)),
            Date(s, localeDate),
            Field(fd, (f: FlightSummary) => f.id),
            Field(fd, (f: FlightSummary) => f.arrivalCity),
            Field(fd, (f: FlightSummary) => f.departureCity)))
        else None;
      CardView(booking, if s.errorFound then Some(s.errorMsg) else None)
  }

  /**
   * An active user pressing Select with the overlay closed opens it, with the
   * chosen seats, the total for them, the user, the flight's duration, times,
   * display date, id and cities.
   */
  lemma SelectOpensBookingWithPayload(
    s: DetailState, currentUser: Option<User>,
    getDuration: (int, int) -> string, getTimeIST: int -> string, localeDate: int -> string)
    requires IsActive(currentUser) && !s.isVisible && s.flightData.Some?
    ensures var f := s.flightData.value;
            var v := Render(Book(s, currentUser), false, currentUser, getDuration, getTimeIST, localeDate);
            v.CardView? && v.booking.Some? &&
            v.booking.value.noOfSeats == s.counter &&
            v.booking.value.totalCost == Some(f.price * s.counter) &&
            v.booking.value.currentUser == currentUser &&
            v.booking.value.flightId == Some(f.id) &&
            v.booking.value.arrivalCity == Some(f.arrivalCity) &&
            v.booking.value.departureCity == Some(f.departureCity) &&
            v.booking.value.date == Some(DisplayDate(localeDate(f.arrivalTime))) &&
            v.booking.value.duration == Some(getDuration(f.departureTime, f.arrivalTime)) &&
            v.booking.value.arrivalTime == Some(getTimeIST(f.arrivalTime)) &&
            v.booking.value.departureTime == Some(getTimeIST(f.departureTime)) &&
            v.errorMessage == Render(s, false, currentUser, getDuration, getTimeIST, localeDate).errorMessage
  {
  }

  /** A signed-out visitor pressing Select with no error shown sees the sign-in message and no booking. */
  lemma SelectSignedOutShowsSignInMessage(
    s: DetailState, getDuration: (int, int) -> string, getTimeIST: int -> string, localeDate: int -> string)
    requires !s.errorFound && !s.isVisible
    ensures Render(Book(s, None), false, None, getDuration, getTimeIST, localeDate)
      == CardView(None, Some(SignInMessage))
  {
  }

  /** Five thousand a seat for three seats comes to fifteen thousand. */
  lemma ThreeSeatsAtFiveThousand(f: FlightSummary, currentUser: Option<User>,
    getDuration: (int, int) -> string, getTimeIST: int -> string, localeDate: int -> string)
    requires f.price == 5000 && IsActive(currentUser)
    ensures var s := Run(Initial, [QueryData(Some(Envelope(true, Some(f)))), IncrementSeats, IncrementSeats, Select(currentUser)]);
            var v := Render(s, false, currentUser, getDuration, getTimeIST, localeDate);
            v.CardView? && v.booking.Some? && v.booking.value.noOfSeats == 3 &&
            v.booking.value.totalCost == Some(15000)
  {
    var s0 := ApplyData(Initial, Some(Envelope(true, Some(f))));
    var s3 := Book(Increment(Increment(s0)), currentUser);
    calc {
      Run(Initial, [QueryData(Some(Envelope(true, Some(f)))), IncrementSeats, IncrementSeats, Select(currentUser)]);
      Run(s0, [IncrementSeats, IncrementSeats, Select(currentUser)]);
      Run(Increment(s0), [IncrementSeats, Select(currentUser)]);
      Run(Increment(Increment(s0)), [Select(currentUser)]);
      Run(s3, []);
    }
    assert s3.counter == 3 && s3.isVisible && s3.flightData == Some(f);
  }

  // ---------------------------------------------------------------------------
  // The component's state

  class FlightDetailsCard {
    var counter: int
    var isVisible: bool
    var errorFound: bool
    var errorMsg: string
    var flightData: Option<FlightSummary>

    function State(): DetailState
      reads this
    {
      DetailState(counter, isVisible, errorFound, errorMsg, flightData)
    }

    predicate Valid()
      reads this
    {
      SeatsInRange(counter)
    }

    constructor ()
      ensures Valid() && State() == Initial
    {
      counter := 1;
      isVisible := false;
      errorFound := false;
      errorMsg := "";
      flightData := None;
    }

    method IncrementSeats()
      requires Valid()
      modifies this
      ensures Valid() && State() == Increment(old(State()))
    {
      if counter < MaxSeats {
        counter := counter + 1;
      }
    }

    method DecrementSeats()
      requires Valid()
      modifies this
      ensures Valid() && State() == Decrement(old(State()))
    {
      if counter > MinSeats {
        counter := counter - 1;
      }
    }

    method HandleBookingModal(currentUser: Option<User>)
      requires Valid()
      modifies this
      ensures Valid() && State() == Book(old(State()), currentUser)
    {
      if currentUser.None? {
        errorMsg := SignInMessage;
        errorFound := !errorFound;
      } else if currentUser.value.status != ActiveStatus {
        errorMsg := ConfirmEmailMessage;
        errorFound := !errorFound;
      } else {
        isVisible := !isVisible;
      }
    }

    /** The effect run when the query's data changes. */
    method OnQueryData(data: Option<Envelope<FlightSummary>>)
      requires Valid()
      modifies this
      ensures Valid() && State() == ApplyData(old(State()), data)
    {
      if data.Some? && data.value.success {
        flightData := data.value.data;
      }
    }

    /** The status check a render makes before drawing the card. */
    method OnQueryStatus(isLoading: bool, isError: bool)
      requires Valid()
      modifies this
      ensures Valid() && State() == ApplyStatus(old(State()), isLoading, isError)
    {
      if !isLoading && isError {
        errorFound := true;
      }
    }
  }
}
