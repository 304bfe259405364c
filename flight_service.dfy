/**
 * The data the two screens receive from the search service and the session:
 * the `{ success, data }` response envelope, one flight summary, and the
 * signed-in user. A JavaScript `undefined` or `null` is `None`.
 */
module FlightService {

  datatype Option<T> = None | Some(value: T)

  /** A parsed JSON response body: `data` may be missing even when `success` holds. */
  datatype Envelope<T> = Envelope(success: bool, data: Option<T>)

  /**
   * One flight as the search service returns it. Timestamps are kept as
   * numbers; `price` is an integer so that costs are exact.
   */
  datatype FlightSummary = FlightSummary(
    id: string,
    flightNumber: string,
    departureTime: int,
    arrivalTime: int,
    departureAirport: string,
    arrivalAirport: string,
    departureCity: string,
    arrivalCity: string,
    price: int)

  /**
   * The session's current user: `status` is what the booking gate consults;
   * the other profile fields are passed through to the booking overlay.
   */
  datatype User = User(status: string, profile: map<string, string>)

  const ActiveStatus: string := "Active"

  /** JavaScript's rendering of a missing value inside a template literal. */
  const Undefined: string := "undefined"
}
