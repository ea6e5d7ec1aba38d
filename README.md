# Flight planner MCP server: a Dafny model of its tools

The server (`src/flights-mcp-server.py`) registers three tools with an
assistant host: two flight searches (`search_one_way_flights`,
`search_round_trip_flights`) and a travel-plan builder
(`create_travel_plan`). It also registers one resource, the airport lookup
(`get_airport_codes`). The searches share a static helper that renders the
results (`FlightPlanningTool.format_flight_result`). Flight data comes from
the foreign `fast_flights.get_flights` scraper.

The model has one Dafny module per piece:

- `Wrappers`: `Option`, and Python truthiness of an optional string.
- `Text`: the Python string operations the source uses, written over `seq<char>`. These are `in`, `join`, `split`, `strip`, `lower`, `str(int)` and string `<`. It also has a `startswith` test and a line filter `Select`, which the source does not use; they only serve to state properties of the output.
- `Dates`: the `datetime.strptime(s, "%Y-%m-%d")` check, and how string order relates to date order.
- `Provider`: the records exchanged with `fast_flights`. It also holds `Library`, a value standing for the foreign behaviour (see the first three "Left out" lines).
- `Formatter`: `format_flight_result`. The method `FormatFlightResult` appends lines in a loop, like the source. It is proved equal to the function `FormattedText`, and the lemmas about `FormattedText` state what the output contains.
- `Search`: the two searches, as functions. Each returns a `SearchRun`: the returned text, plus the list of `get_flights` queries made. So "the provider is not called" is `calls == []`. The round trip is given twice. `SearchRoundTripAsWritten` is the code as written. `SearchRoundTrip` corrects the date-order check (see "## Findings").
- `TravelPlan`: `create_travel_plan`. The method `CreateTravelPlan` builds `plan_parts` with appends and a loop over the interests. It is proved equal to the function `PlanText`. Like the source, it runs the round trip as written.
- `Airports`: the 27-entry table and the lookup loop `GetAirportCodes`. That loop is proved equal to the function `AirportText`.

All `.dfy` files are verified together.

Where the code and the design description disagree, the model follows the code:

- There is no airport CSV feed, cache or sort.
- The seat class is spelled `"premium-economy"`.
- Passenger counts are not checked.
- Equal departure and return date texts are refused.

## Model

| member | source | states |
|---|---|---|
| Formatter.FormatFlightResult | src/flights-mcp-server.py:23-45 | The text built by the append loop equals `FormattedText(result)`, the specification the lemmas below describe |
| Formatter.SentinelIffNoFlights | src/flights-mcp-server.py:25-29 | The text is exactly `No flights found.` iff the result is absent or has no flights; any other text starts with `Current price trend: ` |
| Formatter.Shown | src/flights-mcp-server.py:31 | The flights rendered are the first `min(10, len(flights))` ones, in input order |
| Formatter.FormatLinesStructure | src/flights-mcp-server.py:29-43 | The lines hold exactly `min(10, len(flights))` headings `\nFlight 1:` … `\nFlight k:` in order. The name lines are those of the first k flights, in input order. There is one delay line for each of those flights with a truthy delay, in order |
| Formatter.LaterFlightsIgnored | src/flights-mcp-server.py:31 | Flights after the tenth never change the text |
| Formatter.OptionalLines | src/flights-mcp-server.py:33-37 | The best-option line shows `✓ BEST OPTION` iff `is_best`, and is otherwise blank. The arrives-ahead line carries the value iff that field is truthy, and is otherwise blank |
| Formatter.BlockDelay | src/flights-mcp-server.py:42-43 | A flight's block has a `  Delay: ` line iff its delay is truthy, and that line carries the delay |
| Formatter.NoDelayLines | src/flights-mcp-server.py:42-43 | No delay line appears iff no rendered flight has a truthy delay |
| Formatter.BlockHeading | src/flights-mcp-server.py:32 | Each block has exactly one heading, numbered with its position counted from 1 |
| Formatter.BlockName | src/flights-mcp-server.py:34 | Each block has exactly one name line, naming its flight |
| Formatter.Headings | src/flights-mcp-server.py:31-32 | The k headings are numbered 1 to k, in order |
| Formatter.NameLines | src/flights-mcp-server.py:34 | One name line per flight, in order |
| Text.NatToStringValue | src/flights-mcp-server.py:32 | The decimal numeral written for a flight's number reads back as that number |
| Text.NatToStringInjective | src/flights-mcp-server.py:32 | Different flight numbers give different numerals, so the headings are distinct |
| Dates.ParseDate | src/flights-mcp-server.py:76 | Follows the `%Y-%m-%d` grammar of `strptime`. A match gives a month from 1 to 12 and a day from 1 to 31 |
| Dates.DaysInMonth | src/flights-mcp-server.py:76 | Months have 28 to 31 days, and 29 exactly for February of a Gregorian leap year |
| Dates.PaddedParse | src/flights-mcp-server.py:76 | An `YYYY-MM-DD` text matches iff its month is 01-12 and its day is 01-31. A match reads the written numbers |
| Dates.StringOrderIsDateOrder | src/flights-mcp-server.py:146 | On `YYYY-MM-DD` texts, Python's string `<` is (year, month, day) order, and string equality is equality of the fields |
| Dates.PaddedOrder | src/flights-mcp-server.py:146 | For valid `YYYY-MM-DD` dates, string `<` is the order of the days named |
| Search.SearchOneWay | src/flights-mcp-server.py:74-109 | At most one provider call. A call happens iff the date parses, the seat class is one of the four and the passengers build. The call is exactly one leg `(departure, from, to)`, trip `one-way`, that seat, those passengers, fetch mode `fallback` |
| Search.OneWayOutcome | src/flights-mcp-server.py:74-109 | The text starts with `Error searching for flights: ` iff the date is rejected, or the seat is valid and the passengers or the provider raise. It is the invalid-seat message iff the date passed and the seat is not one of the four. Otherwise it is the formatted provider answer |
| Search.SearchRoundTrip | src/flights-mcp-server.py:140-181 | At most one call. A call happens iff both dates parse, the return day is later than the departure day, the seat is valid and the passengers build. The call is exactly the legs `[(dep, from, to), (ret, to, from)]`, trip `round-trip`, fetch mode `fallback` |
| Search.RoundTripOutcome | src/flights-mcp-server.py:140-181 | The error prefix iff a date is rejected, or the checks pass and the passengers or the provider raise. The date-order message iff both dates parse and the return is not later. The invalid-seat message iff the dates pass and the seat is not one of the four. Otherwise the formatted provider answer |
| Search.DepartureDateCheckedFirst | src/flights-mcp-server.py:142 | A rejected departure date decides the answer of the one-way search and of both round trips, before any other check |
| Search.SameDayReturnRefused | src/flights-mcp-server.py:146-147 | A return date text equal to the departure text gets the date-order message from both round trips, and no call is made |
| Text.LexLessIrreflexive | src/flights-mcp-server.py:146 | No string is less than itself, so `dep >= dep` always holds |
| Search.RoundTripExtendsOneWay | src/flights-mcp-server.py:155-158 | When a round trip calls the provider, its first leg is the one-way search's leg. The second leg swaps origin and destination. Seat, passengers and fetch mode are the same |
| Search.FormattedTextIsAnswer | src/flights-mcp-server.py:105-109 | A formatted answer can never be mistaken for the error prefix, the invalid-seat message or the date-order message |
| Search.SearchRoundTripAsWritten | src/flights-mcp-server.py:140-181 | The round trip with the date order compared on the raw texts. At most one call. A call happens iff both dates parse, `dep < ret` as strings, the seat is valid and the passengers build. The call is exactly the legs `[(dep, from, to), (ret, to, from)]`, trip `round-trip`, fetch mode `fallback` |
| Search.RoundTripOutcomeAsWritten | src/flights-mcp-server.py:140-181 | For the round trip as written: the error prefix iff a date is rejected, or the checks pass and the passengers or the provider raise. The date-order message iff both dates parse and `dep >= ret` as strings. The invalid-seat message iff the dates pass and the seat is not one of the four. Otherwise the formatted provider answer |
| Search.RoundTripAsWrittenExtendsOneWay | src/flights-mcp-server.py:155-158 | When the round trip as written calls the provider, its first leg is the one-way search's leg. The second leg swaps origin and destination. Seat, passengers and fetch mode are the same |
| Search.CheckAgreesOnPaddedDates | src/flights-mcp-server.py:146 | On `YYYY-MM-DD` dates, the string check `dep >= ret` and the day comparison agree |
| Search.AsWrittenAgreesOnPaddedDates | src/flights-mcp-server.py:146-147 | On `YYYY-MM-DD` dates, the as-written and the corrected round trip give the same text and the same calls |
| Search.AsWrittenRejectsLaterReturn | src/flights-mcp-server.py:142-147 | `2024-9-01` and `2024-10-01` both parse, and the second day is later, yet `"2024-9-01" >= "2024-10-01"` holds |
| Search.AsWrittenRefusesLaterReturn | src/flights-mcp-server.py:142-147 | For that trip, the code as written returns the date-order message without a call, while the corrected search queries the provider |
| Search.AsWrittenAcceptsSameDay | src/flights-mcp-server.py:142-147 | `2024-09-01` and `2024-9-1` both parse to 1 September 2024, yet `"2024-09-01" >= "2024-9-1"` does not hold |
| Search.AsWrittenQueriesSameDay | src/flights-mcp-server.py:142-175 | For that same-day trip, the code as written queries the provider for both legs, while the corrected search returns the date-order message without a call |
| TravelPlan.RecommendSeat | src/flights-mcp-server.py:212-218 | The recommended seat is always one of the four valid seat classes |
| TravelPlan.SeatRecommendationTable | src/flights-mcp-server.py:212-218 | `business` iff purpose and budget lower-case to `business` and `luxury`. `premium-economy` iff the budget is luxury and the purpose is not business. `economy` iff the budget is not luxury |
| TravelPlan.TripType | src/flights-mcp-server.py:210-211 | The trip type is `round-trip` iff a return date is given |
| TravelPlan.PlanSearchShape | src/flights-mcp-server.py:226-244 | The inner search, the round trip as written or the one-way search, never gets the invalid-seat answer and calls the provider at most once. Any call is for the plan's trip type, 2 legs for a round trip and 1 otherwise, with the recommended seat and the default passengers |
| TravelPlan.PlanRefusesUnpaddedLaterReturn | src/flights-mcp-server.py:226-235 | A plan departing `2024-9-01` and returning `2024-10-01` gets the date-order message from its inner search, which makes no provider call |
| TravelPlan.BudgetBranches | src/flights-mcp-server.py:271-282 | The budget tips are the budget ones iff the budget lower-cases to `budget`, and the moderate ones iff it lower-cases to `moderate`. Every other string gets the luxury ones. Case does not matter |
| TravelPlan.TipsInjective | src/flights-mcp-server.py:271-282 | The three branches give three different lists of tips |
| TravelPlan.InterestLines | src/flights-mcp-server.py:288-289 | One `- For …` line per interest, in order |
| TravelPlan.InterestCount | src/flights-mcp-server.py:285-289 | There are as many interest lines as commas plus one, each naming the stripped piece at its position |
| TravelPlan.PlanStructure | src/flights-mcp-server.py:258-289 | The plan's `- Return: ` lines are exactly the return line, present iff a return date is given. Its `- For ` lines are exactly the interest lines when `interests` is non-empty, and none otherwise |
| TravelPlan.AssemblePlan | src/flights-mcp-server.py:251-289 | The parts built by appends and the interests loop equal `PlanParts`, the specification the lemmas above describe |
| TravelPlan.CreateTravelPlan | src/flights-mcp-server.py:184-298 | The text is `PlanText` and the provider calls are those of the inner search, the round trip as written when a return date is given |
| Text.SplitJoin | src/flights-mcp-server.py:287 | Joining the pieces of `split(",")` with `,` gives back the interests string |
| Text.SplitCount | src/flights-mcp-server.py:287 | `split(",")` gives one piece more than there are commas |
| Text.Strip | src/flights-mcp-server.py:287 | `strip()` removes whitespace only, from both ends, and leaves no whitespace at either end |
| Text.LowerMeaning | src/flights-mcp-server.py:343 | A lower-cased string has no upper-case ASCII letter. Each upper-case letter becomes its lower-case partner, and every other character is kept |
| Text.LowerIdempotent | src/flights-mcp-server.py:343 | Lower-casing twice is lower-casing once |
| Text.SubstringAt | src/flights-mcp-server.py:348 | The substring test `q in s` holds iff `q` occurs at some offset of `s` |
| Airports.GetAirportCodes | src/flights-mcp-server.py:301-354 | The text built by the lookup loop equals `AirportText(query)` |
| Airports.FilterMembers | src/flights-mcp-server.py:346-349 | A description is listed iff some table entry with it has a lower-cased code or description containing the lower-cased query |
| Airports.FilterConcat | src/flights-mcp-server.py:347-349 | Filtering keeps table order: the matches of a concatenation are those of the first part, then those of the second |
| Airports.FallbackIffNoMatch | src/flights-mcp-server.py:351-354 | The text is exactly the no-match message iff no entry matches |
| Airports.CaseInsensitive | src/flights-mcp-server.py:343 | A query and its lower-cased form give the same text |
| Airports.EmptyQueryListsAll | src/flights-mcp-server.py:346-349 | The empty query matches every entry, listing all descriptions in table order |
| Airports.EmptyQuery | src/flights-mcp-server.py:313-354 | The table has 27 entries, and the empty query returns all their descriptions in table order, joined by newlines |
| Airports.TableShape | src/flights-mcp-server.py:313-341 | Every description opens with its entry's three-letter code in capitals, followed by a blank |

## Left out

- `get_flights` and the `fast_flights` scraper: a `Library` value passed to every search. It stands for any behaviour of the scraper, so the proofs hold for all of them. Its network access, HTML parsing and the fallback fetch mode are out of scope.
- Exception messages: these come from foreign code, so `Library.dateError` and `Library.passengersError` stand for them. As in the source, the model keeps only that any exception becomes `Error searching for flights: <message>`.
- The `Passengers` constructor of `fast_flights`: it may raise for some counts. The model has it as the abstract `Library.passengersError`. The server itself checks no counts.
- FastMCP: the server object, the tool, resource and prompt decorators, `mcp.run`, and the host protocol. These are registration and I/O.
- The progress callbacks `ctx.info` and `ctx.report_progress`: host callbacks that do not affect the returned text.
- `Error creating travel plan: …`: with string arguments and no context object, nothing in `create_travel_plan` can raise. The searches catch their own exceptions. So this path is unreachable in the model.
- The prompt templates `flight_search_prompt` and `travel_plan_prompt`: constant text with no logic.
- Dates.ParseDate: `\d` is read as the ASCII digits `0`-`9` only. Python's `strptime` also accepts other Unicode decimal digits.
- Text.Lower, Text.LowerMeaning: only ASCII letters are lower-cased. Python's `str.lower` also maps other scripts.
- The f-string rendering of the scraper's values: `price`, `duration`, the times and the name are modelled as strings. `stops` is modelled as an integer rendered in decimal.
- The airport CSV feed, the JSON cache, refresh, `get_travel_dates`, passenger-count validation and result sorting: none of these exist in the modelled code.

## Findings

| source | as written | input that shows it | evidently intended | confidence | as-written member | corrected member |
|---|---|---|---|---|---|---|
| src/flights-mcp-server.py:146 | `departure_date >= return_date` compares the raw texts. `strptime` on lines 142-143 also accepts months and days without zero padding. | Departure `2024-9-01`, return `2024-10-01`: both parse, and the return is a month later. But `"2024-9-01" >= "2024-10-01"` holds as strings (`'9' > '1'`), so the trip is refused with "Return date must be after departure date." Conversely, departure `2024-09-01` and return `2024-9-1` name the same day, but `"2024-09-01" >= "2024-9-1"` fails (`'0' < '9'`), so the same-day trip is sent to the provider. | Refuse the trip when the return day is not later than the departure day, comparing the parsed dates. | medium, not executed | Search.SearchRoundTripAsWritten, Search.AsWrittenRejectsLaterReturn, Search.AsWrittenRefusesLaterReturn, Search.AsWrittenAcceptsSameDay, Search.AsWrittenQueriesSameDay | Search.SearchRoundTrip, Search.RoundTripOutcome, Search.AsWrittenAgreesOnPaddedDates |

`SearchRoundTripAsWritten` is the code as written, and `create_travel_plan`
runs it, as the source does (`PlanRefusesUnpaddedLaterReturn` shows the plan
inherits the refusal). `SearchRoundTrip` is the corrected search, comparing
the parsed dates. On dates written `YYYY-MM-DD`, the format the docstrings ask
for, `AsWrittenAgreesOnPaddedDates` proves the two give exactly the same text
and calls. They differ only on unpadded dates that `strptime` accepts: a later return can be refused, and a same-day return can be queried.
