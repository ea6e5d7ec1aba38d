/**
 * The tools `search_one_way_flights` and `search_round_trip_flights`: check
 * the dates and the seat class, build the passengers and the legs, ask the
 * provider and format its answer. An exception raised on the way is caught
 * and its message returned behind `ErrorPrefix`.
 *
 * A search is a function of the foreign code `lib` and its arguments; the
 * result records the returned text and the provider queries made, so "the
 * provider is not asked" is `calls == []`.
 */
module Search {
  import opened Wrappers
  import opened Text
  import opened Dates
  import opened Provider
  import opened Formatter

  const ErrorPrefix := "Error searching for flights: "

  const ValidSeatClasses := ["economy", "premium-economy", "business", "first"]

  const InvalidSeatMessage := "Invalid seat class. Must be one of: " + Join(ValidSeatClasses, ", ")

  const DateOrderMessage := "Return date must be after departure date."

  const FetchMode := "fallback"

  /** The text a tool returns and the provider queries it made, in order. */
  datatype SearchRun = SearchRun(text: string, calls: seq<Query>)

  /** The caught exception with message `m`. */
  function Caught(m: string): string
  {
    ErrorPrefix + m
  }

  /** Asks the provider once and formats its answer. */
  function Ask(lib: Library, q: Query): SearchRun
  {
    match lib.getFlights(q)
    case Raised(m) => SearchRun(Caught(m), [q])
    case Returned(res) => SearchRun(FormattedText(res), [q])
  }

  /** Builds the passengers, then asks the provider about `legs`. */
  function Fetch(lib: Library, legs: seq<Leg>, trip: string, seat: string, p: Passengers): SearchRun
  {
    match lib.passengersError(p)
    case Some(m) => SearchRun(Caught(m), [])
    case None => Ask(lib, Query(legs, trip, seat, p, FetchMode))
  }

  /** The checks a one-way search passes before it may ask the provider. */
  predicate OneWayAccepted(lib: Library, dep: string, p: Passengers, seat: string)
  {
    ValidDate(dep) && seat in ValidSeatClasses && lib.passengersError(p).None?
  }

  /** The query of a one-way search. */
  function OneWayQuery(from: string, to: string, dep: string, p: Passengers, seat: string): Query
  {
    Query([Leg(dep, from, to)], "one-way", seat, p, FetchMode)
  }

  /** `search_one_way_flights`. */
  function SearchOneWay(lib: Library, from: string, to: string, dep: string, p: Passengers, seat: string): (r: SearchRun)
    ensures |r.calls| <= 1
    ensures r.calls != [] <==> OneWayAccepted(lib, dep, p, seat)
    ensures r.calls != [] ==> r.calls == [OneWayQuery(from, to, dep, p, seat)]
  {
    if !ValidDate(dep) then SearchRun(Caught(lib.dateError(dep)), [])
    else if seat !in ValidSeatClasses then SearchRun(InvalidSeatMessage, [])
    else Fetch(lib, [Leg(dep, from, to)], "one-way", seat, p)
  }

  // ---------------------------------------------------------------------------
  // The date-order check of a round trip (see README, Findings)

  /** The check as written: Python's `departure_date >= return_date` on the texts. */
  predicate ReturnNotAfterAsWritten(dep: string, ret: string)
  {
    !LexLess(dep, ret)
  }

  /** The check as intended: the return day is not later than the departure day. */
  predicate ReturnNotAfter(dep: string, ret: string)
    requires ValidDate(dep) && ValidDate(ret)
  {
    !Before(DateOf(dep), DateOf(ret))
  }

  /** For dates written `YYYY-MM-DD`, the two checks agree. */
  lemma CheckAgreesOnPaddedDates(dep: string, ret: string)
    requires ValidDate(dep) && ValidDate(ret) && Padded(dep) && Padded(ret)
    ensures ReturnNotAfter(dep, ret) <==> ReturnNotAfterAsWritten(dep, ret)
  {
    PaddedOrder(dep, ret);
  }

  /**
   * `strptime` accepts `2024-9-01` and `2024-10-01`, the return is a month
   * after the departure, and yet the check as written rejects the trip.
   */
  lemma AsWrittenRejectsLaterReturn()
    ensures ValidDate("2024-9-01") && ValidDate("2024-10-01")
    ensures Before(DateOf("2024-9-01"), DateOf("2024-10-01"))
    ensures ReturnNotAfterAsWritten("2024-9-01", "2024-10-01")
  {
    ParseSeptember();
    ParseOctober();
    LexOrderOfExample();
  }

  lemma Year2024()
    ensures DigitsValue("2024") == 2024
  {
    assert "2024"[..3] == "202" && "202"[..2] == "20" && "20"[..1] == "2" && "2"[..0] == "";
  }

  lemma ParseSeptember()
    ensures ParseDate("2024-9-01") == Some(Date(2024, 9, 1))
  {
    var s := "2024-9-01";
    assert s[..4] == "2024" && s[5..] == "9-01" && s[5..6] == "9" && s[7..] == "01";
    assert MonthToken("9-01") == 1 && DayToken("01") == 2;
    Year2024();
    assert DigitsValue("9") == 9 by {
      assert "9"[..0] == "";
    }
    assert DigitsValue("01") == 1 by {
      assert "01"[..1] == "0" && "0"[..0] == "";
    }
  }

  lemma ParseOctober()
    ensures ParseDate("2024-10-01") == Some(Date(2024, 10, 1))
  {
    var s := "2024-10-01";
    assert s[..4] == "2024" && s[5..] == "10-01" && s[5..7] == "10" && s[8..] == "01";
    assert MonthToken("10-01") == 2 && DayToken("01") == 2;
    Year2024();
    assert DigitsValue("10") == 10 by {
      assert "10"[..1] == "1" && "1"[..0] == "";
    }
    assert DigitsValue("01") == 1 by {
      assert "01"[..1] == "0" && "0"[..0] == "";
    }
  }

  lemma LexOrderOfExample()
    ensures !LexLess("2024-9-01", "2024-10-01")
  {
    LexLessConcat("2024-", "9-01", "2024-", "10-01");
    assert "2024-9-01" == "2024-" + "9-01" && "2024-10-01" == "2024-" + "10-01";
  }

  /**
   * A same-day return written without padding: both texts name 1 September
   * 2024, yet `"2024-09-01" >= "2024-9-1"` is false, since `'0' < '9'`.
   */
  lemma AsWrittenAcceptsSameDay()
    ensures ValidDate("2024-09-01") && ValidDate("2024-9-1")
    ensures DateOf("2024-09-01") == DateOf("2024-9-1")
    ensures !ReturnNotAfterAsWritten("2024-09-01", "2024-9-1")
  {
    ParsePaddedSeptember();
    ParseUnpaddedSeptember();
    LexLessConcat("2024-", "09-01", "2024-", "9-1");
    assert "2024-09-01" == "2024-" + "09-01" && "2024-9-1" == "2024-" + "9-1";
  }

  lemma ParsePaddedSeptember()
    ensures ParseDate("2024-09-01") == Some(Date(2024, 9, 1))
  {
    var s := "2024-09-01";
    assert s[..4] == "2024" && s[5..] == "09-01" && s[5..7] == "09" && s[8..] == "01";
    assert MonthToken("09-01") == 2 && DayToken("01") == 2;
    Year2024();
    assert DigitsValue("09") == 9 by {
      assert "09"[..1] == "0" && "0"[..0] == "";
    }
    assert DigitsValue("01") == 1 by {
      assert "01"[..1] == "0" && "0"[..0] == "";
    }
  }

  lemma ParseUnpaddedSeptember()
    ensures ParseDate("2024-9-1") == Some(Date(2024, 9, 1))
  {
    var s := "2024-9-1";
    assert s[..4] == "2024" && s[5..] == "9-1" && s[5..6] == "9" && s[7..] == "1";
    assert MonthToken("9-1") == 1 && DayToken("1") == 1;
    Year2024();
    assert DigitsValue("9") == 9 by {
      assert "9"[..0] == "";
    }
    assert DigitsValue("1") == 1 by {
      assert "1"[..0] == "";
    }
  }

  // ---------------------------------------------------------------------------
  // Round trips

  /** The checks a round-trip search passes before it may ask the provider. */
  predicate RoundTripAccepted(lib: Library, dep: string, ret: string, p: Passengers, seat: string)
  {
    ValidDate(dep) && ValidDate(ret) && Before(DateOf(dep), DateOf(ret)) &&
    seat in ValidSeatClasses && lib.passengersError(p).None?
  }

  /** The query of a round-trip search: out on `dep`, and back the other way on `ret`. */
  function RoundTripQuery(from: string, to: string, dep: string, ret: string, p: Passengers, seat: string): Query
  {
    Query([Leg(dep, from, to), Leg(ret, to, from)], "round-trip", seat, p, FetchMode)
  }

  /** `search_round_trip_flights`, with the date-order check as intended. */
  function SearchRoundTrip(lib: Library, from: string, to: string, dep: string, ret: string, p: Passengers, seat: string): (r: SearchRun)
    ensures |r.calls| <= 1
    ensures r.calls != [] <==> RoundTripAccepted(lib, dep, ret, p, seat)
    ensures r.calls != [] ==> r.calls == [RoundTripQuery(from, to, dep, ret, p, seat)]
  {
    if !ValidDate(dep) then SearchRun(Caught(lib.dateError(dep)), [])
    else if !ValidDate(ret) then SearchRun(Caught(lib.dateError(ret)), [])
    else if ReturnNotAfter(dep, ret) then SearchRun(DateOrderMessage, [])
    else if seat !in ValidSeatClasses then SearchRun(InvalidSeatMessage, [])
    else Fetch(lib, [Leg(dep, from, to), Leg(ret, to, from)], "round-trip", seat, p)
  }

  /**
   * `search_round_trip_flights` as written, comparing the date texts. This is
   * the search `TravelPlan` runs; `SearchRoundTrip` is the corrected search,
   * which only the agreement and contrast lemmas of this module relate to it.
   */
  function SearchRoundTripAsWritten(lib: Library, from: string, to: string, dep: string, ret: string, p: Passengers, seat: string): (r: SearchRun)
    ensures |r.calls| <= 1
    ensures r.calls != [] <==>
      ValidDate(dep) && ValidDate(ret) && LexLess(dep, ret) && seat in ValidSeatClasses && lib.passengersError(p).None?
    ensures r.calls != [] ==> r.calls == [RoundTripQuery(from, to, dep, ret, p, seat)]
  {
    if !ValidDate(dep) then SearchRun(Caught(lib.dateError(dep)), [])
    else if !ValidDate(ret) then SearchRun(Caught(lib.dateError(ret)), [])
    else if ReturnNotAfterAsWritten(dep, ret) then SearchRun(DateOrderMessage, [])
    else if seat !in ValidSeatClasses then SearchRun(InvalidSeatMessage, [])
    else Fetch(lib, [Leg(dep, from, to), Leg(ret, to, from)], "round-trip", seat, p)
  }

  /** On dates written `YYYY-MM-DD` the code as written and the corrected search behave alike. */
  lemma AsWrittenAgreesOnPaddedDates(lib: Library, from: string, to: string, dep: string, ret: string, p: Passengers, seat: string)
    requires Padded(dep) && Padded(ret)
    ensures SearchRoundTripAsWritten(lib, from, to, dep, ret, p, seat) == SearchRoundTrip(lib, from, to, dep, ret, p, seat)
  {
    if ValidDate(dep) && ValidDate(ret) {
      CheckAgreesOnPaddedDates(dep, ret);
    }
  }

  /**
   * Departing on `2024-9-01` and returning on `2024-10-01`, with a valid seat
   * class and passengers, the code as written refuses the trip while the
   * corrected search asks the provider about it.
   */
  lemma AsWrittenRefusesLaterReturn(lib: Library, from: string, to: string, p: Passengers, seat: string)
    requires seat in ValidSeatClasses && lib.passengersError(p).None?
    ensures SearchRoundTripAsWritten(lib, from, to, "2024-9-01", "2024-10-01", p, seat) == SearchRun(DateOrderMessage, [])
    ensures SearchRoundTrip(lib, from, to, "2024-9-01", "2024-10-01", p, seat).calls ==
      [RoundTripQuery(from, to, "2024-9-01", "2024-10-01", p, seat)]
  {
    AsWrittenRejectsLaterReturn();
  }

  /**
   * For that same-day trip the code as written queries the provider, while
   * the corrected search refuses it.
   */
  lemma AsWrittenQueriesSameDay(lib: Library, from: string, to: string, p: Passengers, seat: string)
    requires seat in ValidSeatClasses && lib.passengersError(p).None?
    ensures SearchRoundTripAsWritten(lib, from, to, "2024-09-01", "2024-9-1", p, seat).calls ==
      [RoundTripQuery(from, to, "2024-09-01", "2024-9-1", p, seat)]
    ensures SearchRoundTrip(lib, from, to, "2024-09-01", "2024-9-1", p, seat) == SearchRun(DateOrderMessage, [])
  {
    AsWrittenAcceptsSameDay();
  }

  // ---------------------------------------------------------------------------
  // Properties

  lemma CaughtIsError(m: string)
    ensures StartsWith(Caught(m), ErrorPrefix)
  {
    assert Caught(m)[..|ErrorPrefix|] == ErrorPrefix;
  }

  /** No formatted answer can be mistaken for a caught exception or a refusal. */
  lemma FormattedTextIsAnswer(res: Option<FlightResult>)
    ensures !StartsWith(FormattedText(res), ErrorPrefix)
    ensures FormattedText(res) != InvalidSeatMessage && FormattedText(res) != DateOrderMessage
  {
    SentinelIffNoFlights(res);
    var t := FormattedText(res);
    assert t[0] == 'N' || t[0] == 'C';
    Mismatch(t, ErrorPrefix, 0);
  }

  /**
   * A one-way search reports an exception exactly when the date is rejected,
   * or the seat class is valid and building the passengers or asking the
   * provider raised; it refuses the seat class exactly when the date passed
   * and the seat class is not one of the four; otherwise it returns the
   * formatted answer of the provider.
   */
  lemma OneWayOutcome(lib: Library, from: string, to: string, dep: string, p: Passengers, seat: string)
    ensures var r := SearchOneWay(lib, from, to, dep, p, seat);
      StartsWith(r.text, ErrorPrefix) <==>
        !ValidDate(dep) ||
        (seat in ValidSeatClasses &&
         (lib.passengersError(p).Some? || lib.getFlights(OneWayQuery(from, to, dep, p, seat)).Raised?))
    ensures var r := SearchOneWay(lib, from, to, dep, p, seat);
      r.text == InvalidSeatMessage <==> ValidDate(dep) && seat !in ValidSeatClasses
    ensures var r := SearchOneWay(lib, from, to, dep, p, seat);
      OneWayAccepted(lib, dep, p, seat) && lib.getFlights(OneWayQuery(from, to, dep, p, seat)).Returned? ==>
        r.text == FormattedText(lib.getFlights(OneWayQuery(from, to, dep, p, seat)).value)
  {
    var q := OneWayQuery(from, to, dep, p, seat);
    var r := SearchOneWay(lib, from, to, dep, p, seat);
    Mismatch(InvalidSeatMessage, ErrorPrefix, 0);
    if lib.getFlights(q).Returned? {
      FormattedTextIsAnswer(lib.getFlights(q).value);
    }
    if !ValidDate(dep) {
      CaughtIsError(lib.dateError(dep));
    } else if lib.passengersError(p).Some? {
      CaughtIsError(lib.passengersError(p).value);
    } else if lib.getFlights(q).Raised? {
      CaughtIsError(lib.getFlights(q).message);
    }
  }

  /**
   * A round trip reports an exception exactly when a date is rejected, or
   * the dates are in order, the seat class is valid and building the
   * passengers or asking the provider raised; it answers with the date-order
   * message exactly when both dates are valid and the return is not after
   * the departure; otherwise it returns the formatted answer of the provider.
   */
  lemma RoundTripOutcome(lib: Library, from: string, to: string, dep: string, ret: string, p: Passengers, seat: string)
    ensures var r := SearchRoundTrip(lib, from, to, dep, ret, p, seat);
      StartsWith(r.text, ErrorPrefix) <==>
        !ValidDate(dep) || !ValidDate(ret) ||
        (Before(DateOf(dep), DateOf(ret)) && seat in ValidSeatClasses &&
         (lib.passengersError(p).Some? || lib.getFlights(RoundTripQuery(from, to, dep, ret, p, seat)).Raised?))
    ensures var r := SearchRoundTrip(lib, from, to, dep, ret, p, seat);
      r.text == DateOrderMessage <==> ValidDate(dep) && ValidDate(ret) && !Before(DateOf(dep), DateOf(ret))
    ensures var r := SearchRoundTrip(lib, from, to, dep, ret, p, seat);
      r.text == InvalidSeatMessage <==>
        ValidDate(dep) && ValidDate(ret) && Before(DateOf(dep), DateOf(ret)) && seat !in ValidSeatClasses
    ensures var r := SearchRoundTrip(lib, from, to, dep, ret, p, seat);
      RoundTripAccepted(lib, dep, ret, p, seat) && lib.getFlights(RoundTripQuery(from, to, dep, ret, p, seat)).Returned? ==>
        r.text == FormattedText(lib.getFlights(RoundTripQuery(from, to, dep, ret, p, seat)).value)
  {
    var q := RoundTripQuery(from, to, dep, ret, p, seat);
    var r := SearchRoundTrip(lib, from, to, dep, ret, p, seat);
    Mismatch(InvalidSeatMessage, ErrorPrefix, 0);
    Mismatch(DateOrderMessage, ErrorPrefix, 0);
    assert InvalidSeatMessage[0] != DateOrderMessage[0];
    if lib.getFlights(q).Returned? {
      FormattedTextIsAnswer(lib.getFlights(q).value);
    }
    if !ValidDate(dep) || !ValidDate(ret) {
      CaughtIsError(lib.dateError(if ValidDate(dep) then ret else dep));
    } else if lib.passengersError(p).Some? {
      CaughtIsError(lib.passengersError(p).value);
    } else if lib.getFlights(q).Raised? {
      CaughtIsError(lib.getFlights(q).message);
    }
  }

  /**
   * The round trip as written: it reports an exception exactly when a date
   * is rejected, or the date texts are in order, the seat class is valid and
   * building the passengers or asking the provider raised; it answers with
   * the date-order message exactly when both dates are valid and
   * `dep >= ret` as strings; it refuses the seat class exactly when the dates
   * passed and the seat class is not one of the four; otherwise it returns
   * the formatted answer of the provider.
   */
  lemma RoundTripOutcomeAsWritten(lib: Library, from: string, to: string, dep: string, ret: string, p: Passengers, seat: string)
    ensures var r := SearchRoundTripAsWritten(lib, from, to, dep, ret, p, seat);
      StartsWith(r.text, ErrorPrefix) <==>
        !ValidDate(dep) || !ValidDate(ret) ||
        (LexLess(dep, ret) && seat in ValidSeatClasses &&
         (lib.passengersError(p).Some? || lib.getFlights(RoundTripQuery(from, to, dep, ret, p, seat)).Raised?))
    ensures var r := SearchRoundTripAsWritten(lib, from, to, dep, ret, p, seat);
      r.text == DateOrderMessage <==> ValidDate(dep) && ValidDate(ret) && !LexLess(dep, ret)
    ensures var r := SearchRoundTripAsWritten(lib, from, to, dep, ret, p, seat);
      r.text == InvalidSeatMessage <==>
        ValidDate(dep) && ValidDate(ret) && LexLess(dep, ret) && seat !in ValidSeatClasses
    ensures var r := SearchRoundTripAsWritten(lib, from, to, dep, ret, p, seat);
      r.calls != [] && lib.getFlights(RoundTripQuery(from, to, dep, ret, p, seat)).Returned? ==>
        r.text == FormattedText(lib.getFlights(RoundTripQuery(from, to, dep, ret, p, seat)).value)
  {
    var q := RoundTripQuery(from, to, dep, ret, p, seat);
    Mismatch(InvalidSeatMessage, ErrorPrefix, 0);
    Mismatch(DateOrderMessage, ErrorPrefix, 0);
    assert InvalidSeatMessage[0] != DateOrderMessage[0];
    if lib.getFlights(q).Returned? {
      FormattedTextIsAnswer(lib.getFlights(q).value);
    }
    if !ValidDate(dep) || !ValidDate(ret) {
      CaughtIsError(lib.dateError(if ValidDate(dep) then ret else dep));
    } else if lib.passengersError(p).Some? {
      CaughtIsError(lib.passengersError(p).value);
    } else if lib.getFlights(q).Raised? {
      CaughtIsError(lib.getFlights(q).message);
    }
  }

  /** Validation order: the departure date is checked before anything else. */
  lemma DepartureDateCheckedFirst(lib: Library, from: string, to: string, dep: string, ret: string, p: Passengers, seat: string)
    requires !ValidDate(dep)
    ensures SearchOneWay(lib, from, to, dep, p, seat).text == Caught(lib.dateError(dep))
    ensures SearchRoundTrip(lib, from, to, dep, ret, p, seat).text == Caught(lib.dateError(dep))
    ensures SearchRoundTripAsWritten(lib, from, to, dep, ret, p, seat).text == Caught(lib.dateError(dep))
  {
  }

  /**
   * A return date text equal to the departure text is refused by both round
   * trips, whatever the seat class. (A same-day return written differently
   * can pass the check as written: see `AsWrittenQueriesSameDay`.)
   */
  lemma SameDayReturnRefused(lib: Library, from: string, to: string, dep: string, p: Passengers, seat: string)
    requires ValidDate(dep)
    ensures SearchRoundTrip(lib, from, to, dep, dep, p, seat) == SearchRun(DateOrderMessage, [])
    ensures SearchRoundTripAsWritten(lib, from, to, dep, dep, p, seat) == SearchRun(DateOrderMessage, [])
  {
    LexLessIrreflexive(dep);
  }

  /**
   * When a round trip asks the provider, the one-way search with the same
   * departure asks it too, about the round trip's outbound leg, for the same
   * seat class and passengers; the return leg retraces the outbound one.
   */
  lemma RoundTripExtendsOneWay(lib: Library, from: string, to: string, dep: string, ret: string, p: Passengers, seat: string)
    requires SearchRoundTrip(lib, from, to, dep, ret, p, seat).calls != []
    ensures var rt := SearchRoundTrip(lib, from, to, dep, ret, p, seat).calls[0];
      var ow := SearchOneWay(lib, from, to, dep, p, seat).calls;
      ow != [] && |rt.legs| == 2 && ow[0].legs == rt.legs[..1] &&
      rt.legs[1] == Leg(ret, rt.legs[0].toAirport, rt.legs[0].fromAirport) &&
      ow[0].seat == rt.seat && ow[0].passengers == rt.passengers && ow[0].fetchMode == rt.fetchMode
  {
  }

  /** The same holds for the round trip as written. */
  lemma RoundTripAsWrittenExtendsOneWay(lib: Library, from: string, to: string, dep: string, ret: string, p: Passengers, seat: string)
    requires SearchRoundTripAsWritten(lib, from, to, dep, ret, p, seat).calls != []
    ensures var rt := SearchRoundTripAsWritten(lib, from, to, dep, ret, p, seat).calls[0];
      var ow := SearchOneWay(lib, from, to, dep, p, seat).calls;
      ow != [] && |rt.legs| == 2 && ow[0].legs == rt.legs[..1] &&
      rt.legs[1] == Leg(ret, rt.legs[0].toAirport, rt.legs[0].fromAirport) &&
      ow[0].seat == rt.seat && ow[0].passengers == rt.passengers && ow[0].fetchMode == rt.fetchMode
  {
  }
}
