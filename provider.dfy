/**
 * The records exchanged with the `fast_flights` scraping library, and the
 * foreign behaviour the server depends on, given as values so that the
 * rest of the model can be stated for every possible behaviour of it.
 */
module Provider {
  import opened Wrappers

  /** `FlightData`: one directional leg of a trip. */
  datatype Leg = Leg(date: string, fromAirport: string, toAirport: string)

  /** `Passengers`: the four passenger counts, passed through unchecked by the server. */
  datatype Passengers = Passengers(adults: int, children: int, infantsInSeat: int, infantsOnLap: int)

  /** The arguments of one `get_flights` call. */
  datatype Query = Query(legs: seq<Leg>, trip: string, seat: string, passengers: Passengers, fetchMode: string)

  /** One offer of a `Result`; `arrivalTimeAhead` and `delay` may be absent. */
  datatype Flight = Flight(
    isBest: bool,
    name: string,
    departure: string,
    arrival: string,
    arrivalTimeAhead: Option<string>,
    duration: string,
    stops: int,
    price: string,
    delay: Option<string>)

  /** `Result`: the price trend and the offers, in the provider's order. */
  datatype FlightResult = FlightResult(currentPrice: string, flights: seq<Flight>)

  /** A foreign call either returns a value or raises an exception with a message. */
  datatype Outcome<+T> = Returned(value: T) | Raised(message: string)

  /**
   * The foreign code a search runs:
   * - `dateError(s)`: the message of the `ValueError` that `datetime.strptime`
   *   raises for a string `s` that is not a date;
   * - `passengersError(p)`: `Some(message)` when constructing `Passengers`
   *   from the counts `p` raises, `None` when it succeeds;
   * - `getFlights(q)`: what `get_flights` does for the arguments `q`; it may
   *   return `None`, a `Result`, or raise.
   */
  datatype Library = Library(
    dateError: string -> string,
    passengersError: Passengers -> Option<string>,
    getFlights: Query -> Outcome<Option<FlightResult>>)
}
