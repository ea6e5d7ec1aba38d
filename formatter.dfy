/**
 * `FlightPlanningTool.format_flight_result`: renders a provider result as
 * text. The text is the list of lines the method builds, joined by newlines;
 * the specification is stated on that list of lines.
 */
module Formatter {
  import opened Wrappers
  import opened Text
  import opened Provider

  const NoFlightsFound := "No flights found."

  /** How many offers are rendered at most. */
  const MaxShown := 10

  const BestMark := "\U{2713} BEST OPTION"

  const HeadingPrefix := "\nFlight "
  const NamePrefix := "  Name: "
  const DelayPrefix := "  Delay: "

  const TrendPrefix := "Current price trend: "

  function PriceTrendLine(price: string): string
  {
    TrendPrefix + price
  }

  function FlightHeading(n: nat): string
  {
    HeadingPrefix + NatToString(n) + ":"
  }

  /** The `✓ BEST OPTION` line: blank unless the flight is flagged best. */
  function BestLine(f: Flight): string
  {
    "  " + (if f.isBest then BestMark else "")
  }

  /** The `Arrives ahead:` line: blank unless that field is truthy. */
  function AheadLine(f: Flight): string
  {
    "  " + (if Truthy(f.arrivalTimeAhead) then "Arrives ahead: " + f.arrivalTimeAhead.value else "")
  }

  /** The delay line, present only when the delay is truthy. */
  function DelayLine(f: Flight): seq<string>
  {
    if Truthy(f.delay) then [DelayPrefix + f.delay.value] else []
  }

  /** The lines appended for the `n`-th flight `f` (counting from 1), in order. */
  function FlightBlock(n: nat, f: Flight): seq<string>
  {
    [FlightHeading(n)]
    + [BestLine(f)]
    + [NamePrefix + f.name]
    + ["  Departure: " + f.departure]
    + ["  Arrival: " + f.arrival]
    + [AheadLine(f)]
    + ["  Duration: " + f.duration]
    + ["  Stops: " + IntToString(f.stops)]
    + ["  Price: " + f.price]
    + DelayLine(f)
  }

  /** `[l]` if `l` starts with `p`, else nothing. */
  function Pick(l: string, p: string): seq<string>
  {
    if StartsWith(l, p) then [l] else []
  }

  /** Selecting from nine lines followed by an optional tail, line by line. */
  lemma SelectLines(l0: string, l1: string, l2: string, l3: string, l4: string, l5: string,
                    l6: string, l7: string, l8: string, d: seq<string>, p: string)
    ensures Select([l0] + [l1] + [l2] + [l3] + [l4] + [l5] + [l6] + [l7] + [l8] + d, p) ==
      Pick(l0, p) + Pick(l1, p) + Pick(l2, p) + Pick(l3, p) + Pick(l4, p) + Pick(l5, p)
      + Pick(l6, p) + Pick(l7, p) + Pick(l8, p) + Select(d, p)
  {
    var b1 := [l0] + [l1];
    var b2 := b1 + [l2];
    var b3 := b2 + [l3];
    var b4 := b3 + [l4];
    var b5 := b4 + [l5];
    var b6 := b5 + [l6];
    var b7 := b6 + [l7];
    var b8 := b7 + [l8];
    SelectConcat([l0], [l1], p);
    SelectConcat(b1, [l2], p);
    SelectConcat(b2, [l3], p);
    SelectConcat(b3, [l4], p);
    SelectConcat(b4, [l5], p);
    SelectConcat(b5, [l6], p);
    SelectConcat(b6, [l7], p);
    SelectConcat(b7, [l8], p);
    SelectConcat(b8, d, p);
    SelectOne(l0, p); SelectOne(l1, p); SelectOne(l2, p);
    SelectOne(l3, p); SelectOne(l4, p); SelectOne(l5, p);
    SelectOne(l6, p); SelectOne(l7, p); SelectOne(l8, p);
  }

  /** Appending nine lines and a tail one at a time appends them as one block. */
  lemma AppendLines(before: seq<string>, l0: string, l1: string, l2: string, l3: string, l4: string,
                    l5: string, l6: string, l7: string, l8: string, d: seq<string>, after: seq<string>)
    requires after == before + [l0] + [l1] + [l2] + [l3] + [l4] + [l5] + [l6] + [l7] + [l8] + d
    ensures after == before + ([l0] + [l1] + [l2] + [l3] + [l4] + [l5] + [l6] + [l7] + [l8] + d)
  {
  }

  /** `result.flights[:10]`: the offers that are rendered. */
  function Shown(flights: seq<Flight>): (r: seq<Flight>)
    ensures |r| == if |flights| < MaxShown then |flights| else MaxShown
    ensures r == flights[..|r|]
  {
    if |flights| <= MaxShown then flights else flights[..MaxShown]
  }

  /** The blocks of `fs`, numbered 1 to `|fs|` in order. */
  function Blocks(fs: seq<Flight>): seq<string>
    decreases |fs|
  {
    if fs == [] then [] else Blocks(fs[..|fs| - 1]) + FlightBlock(|fs|, fs[|fs| - 1])
  }

  /** The lines written for a non-empty result. */
  function FormatLines(r: FlightResult): seq<string>
  {
    [PriceTrendLine(r.currentPrice)] + Blocks(Shown(r.flights))
  }

  /** Python's `not result or not result.flights`. */
  predicate NoFlights(result: Option<FlightResult>)
  {
    result.None? || result.value.flights == []
  }

  /** The text `format_flight_result` returns. */
  function FormattedText(result: Option<FlightResult>): string
  {
    if NoFlights(result) then NoFlightsFound else Join(FormatLines(result.value), "\n")
  }

  /** One more offer adds its block at the end. */
  lemma BlocksSnoc(fs: seq<Flight>, i: nat)
    requires i < |fs|
    ensures Blocks(fs[..i + 1]) == Blocks(fs[..i]) + FlightBlock(i + 1, fs[i])
  {
    assert fs[..i + 1][..i] == fs[..i];
  }

  /** The lines appended for one flight are its block, so the loop invariant is kept. */
  lemma AppendedBlock(h: string, xs: seq<string>, b: seq<string>, ys: seq<string>, before: seq<string>, after: seq<string>)
    requires before == [h] + xs
    requires after == before + b
    requires ys == xs + b
    ensures after == [h] + ys
  {
  }

  /** Builds the lines one by one, as the source loop does, and joins them. */
  method FormatFlightResult(result: Option<FlightResult>) returns (text: string)
    ensures text == FormattedText(result)
  {
    if result.None? || result.value.flights == [] {
      return NoFlightsFound;
    }
    var output := [PriceTrendLine(result.value.currentPrice)];
    var flights := Shown(result.value.flights);
    for i := 0 to |flights|
      invariant output == [PriceTrendLine(result.value.currentPrice)] + Blocks(flights[..i])
    {
      var flight := flights[i];
      ghost var before := output;
      output := output + [FlightHeading(i + 1)];
      output := output + [BestLine(flight)];
      output := output + [NamePrefix + flight.name];
      output := output + ["  Departure: " + flight.departure];
      output := output + ["  Arrival: " + flight.arrival];
      output := output + [AheadLine(flight)];
      output := output + ["  Duration: " + flight.duration];
      output := output + ["  Stops: " + IntToString(flight.stops)];
      output := output + ["  Price: " + flight.price];
      if Truthy(flight.delay) {
        output := output + [DelayPrefix + flight.delay.value];
      }
      AppendLines(before, FlightHeading(i + 1), BestLine(flight), NamePrefix + flight.name,
        "  Departure: " + flight.departure, "  Arrival: " + flight.arrival, AheadLine(flight),
        "  Duration: " + flight.duration, "  Stops: " + IntToString(flight.stops), "  Price: " + flight.price,
        DelayLine(flight), output);
      BlocksSnoc(flights, i);
      AppendedBlock(PriceTrendLine(result.value.currentPrice), Blocks(flights[..i]), FlightBlock(i + 1, flight),
        Blocks(flights[..i + 1]), before, output);
    }
    assert flights[..|flights|] == flights;
    text := Join(output, "\n");
  }

  // ---------------------------------------------------------------------------
  // Properties

  /**
   * The sentinel is returned exactly when there is no result or no offer;
   * any other text opens with the price trend.
   */
  lemma SentinelIffNoFlights(result: Option<FlightResult>)
    ensures FormattedText(result) == NoFlightsFound <==> NoFlights(result)
    ensures !NoFlights(result) ==> StartsWith(FormattedText(result), TrendPrefix)
  {
    if !NoFlights(result) {
      var lines := FormatLines(result.value);
      JoinStartsWithFirst(lines, "\n");
      var text := Join(lines, "\n");
      assert text[..|lines[0]|] == lines[0];
      assert text[..|TrendPrefix|] == lines[0][..|TrendPrefix|];
      assert text[0] == 'C';
      assert NoFlightsFound[0] == 'N';
    }
  }

  /** A line that starts with `p` is picked. */
  lemma Picked(l: string, p: string)
    requires StartsWith(l, p)
    ensures Pick(l, p) == [l]
  {
  }

  /** A line that differs from `p` at position `i` is not picked. */
  lemma NotPicked(l: string, p: string, i: nat)
    requires i < |p| && (|l| <= i || l[i] != p[i])
    ensures Pick(l, p) == []
  {
    Mismatch(l, p, i);
  }

  /** No fixed line of a block starts with the delay prefix. */
  lemma DelayPicks(n: nat, f: Flight)
    ensures Pick(FlightHeading(n), DelayPrefix) == []
    ensures Pick(BestLine(f), DelayPrefix) == []
    ensures Pick(NamePrefix + f.name, DelayPrefix) == []
    ensures Pick("  Departure: " + f.departure, DelayPrefix) == []
    ensures Pick("  Arrival: " + f.arrival, DelayPrefix) == []
    ensures Pick(AheadLine(f), DelayPrefix) == []
    ensures Pick("  Duration: " + f.duration, DelayPrefix) == []
    ensures Pick("  Stops: " + IntToString(f.stops), DelayPrefix) == []
    ensures Pick("  Price: " + f.price, DelayPrefix) == []
  {
    NotPicked(FlightHeading(n), DelayPrefix, 2);
    NotPicked(BestLine(f), DelayPrefix, 2);
    NotPicked(NamePrefix + f.name, DelayPrefix, 2);
    NotPicked("  Departure: " + f.departure, DelayPrefix, 4);
    NotPicked("  Arrival: " + f.arrival, DelayPrefix, 2);
    NotPicked(AheadLine(f), DelayPrefix, 2);
    NotPicked("  Duration: " + f.duration, DelayPrefix, 3);
    NotPicked("  Stops: " + IntToString(f.stops), DelayPrefix, 2);
    NotPicked("  Price: " + f.price, DelayPrefix, 2);
  }

  /** Of the fixed lines of a block only the first starts with the heading prefix. */
  lemma HeadingPicks(n: nat, f: Flight)
    ensures Pick(FlightHeading(n), HeadingPrefix) == [FlightHeading(n)]
    ensures Pick(BestLine(f), HeadingPrefix) == []
    ensures Pick(NamePrefix + f.name, HeadingPrefix) == []
    ensures Pick("  Departure: " + f.departure, HeadingPrefix) == []
    ensures Pick("  Arrival: " + f.arrival, HeadingPrefix) == []
    ensures Pick(AheadLine(f), HeadingPrefix) == []
    ensures Pick("  Duration: " + f.duration, HeadingPrefix) == []
    ensures Pick("  Stops: " + IntToString(f.stops), HeadingPrefix) == []
    ensures Pick("  Price: " + f.price, HeadingPrefix) == []
  {
    Picked(FlightHeading(n), HeadingPrefix);
    NotPicked(BestLine(f), HeadingPrefix, 0);
    NotPicked(NamePrefix + f.name, HeadingPrefix, 0);
    NotPicked("  Departure: " + f.departure, HeadingPrefix, 0);
    NotPicked("  Arrival: " + f.arrival, HeadingPrefix, 0);
    NotPicked(AheadLine(f), HeadingPrefix, 0);
    NotPicked("  Duration: " + f.duration, HeadingPrefix, 0);
    NotPicked("  Stops: " + IntToString(f.stops), HeadingPrefix, 0);
    NotPicked("  Price: " + f.price, HeadingPrefix, 0);
  }

  /** Of the fixed lines of a block only the third starts with the name prefix. */
  lemma NamePicks(n: nat, f: Flight)
    ensures Pick(FlightHeading(n), NamePrefix) == []
    ensures Pick(BestLine(f), NamePrefix) == []
    ensures Pick(NamePrefix + f.name, NamePrefix) == [NamePrefix + f.name]
    ensures Pick("  Departure: " + f.departure, NamePrefix) == []
    ensures Pick("  Arrival: " + f.arrival, NamePrefix) == []
    ensures Pick(AheadLine(f), NamePrefix) == []
    ensures Pick("  Duration: " + f.duration, NamePrefix) == []
    ensures Pick("  Stops: " + IntToString(f.stops), NamePrefix) == []
    ensures Pick("  Price: " + f.price, NamePrefix) == []
  {
    NotPicked(FlightHeading(n), NamePrefix, 2);
    NotPicked(BestLine(f), NamePrefix, 2);
    Picked(NamePrefix + f.name, NamePrefix);
    NotPicked("  Departure: " + f.departure, NamePrefix, 2);
    NotPicked("  Arrival: " + f.arrival, NamePrefix, 2);
    NotPicked(AheadLine(f), NamePrefix, 2);
    NotPicked("  Duration: " + f.duration, NamePrefix, 2);
    NotPicked("  Stops: " + IntToString(f.stops), NamePrefix, 2);
    NotPicked("  Price: " + f.price, NamePrefix, 2);
  }

  /** The best-option and arrives-ahead lines carry text exactly when their field is truthy, and are blank otherwise. */
  lemma OptionalLines(f: Flight)
    ensures BestLine(f) == "  " + BestMark <==> f.isBest
    ensures BestLine(f) == "  " <==> !f.isBest
    ensures AheadLine(f) == "  " <==> !Truthy(f.arrivalTimeAhead)
    ensures Truthy(f.arrivalTimeAhead) ==> AheadLine(f) == "  Arrives ahead: " + f.arrivalTimeAhead.value
  {
  }

  /** A block has a delay line exactly when the offer's delay is truthy. */
  lemma BlockDelay(n: nat, f: Flight)
    ensures Select(FlightBlock(n, f), DelayPrefix) == DelayLine(f)
  {
    var p := DelayPrefix;
    SelectLines(FlightHeading(n), BestLine(f), NamePrefix + f.name, "  Departure: " + f.departure,
      "  Arrival: " + f.arrival, AheadLine(f), "  Duration: " + f.duration,
      "  Stops: " + IntToString(f.stops), "  Price: " + f.price, DelayLine(f), p);
    DelayPicks(n, f);
    if Truthy(f.delay) {
      Picked(DelayPrefix + f.delay.value, p);
      SelectOne(DelayPrefix + f.delay.value, p);
    }
  }

  /** A block has one heading, its first line. */
  lemma BlockHeading(n: nat, f: Flight)
    ensures Select(FlightBlock(n, f), HeadingPrefix) == [FlightHeading(n)]
  {
    var p := HeadingPrefix;
    SelectLines(FlightHeading(n), BestLine(f), NamePrefix + f.name, "  Departure: " + f.departure,
      "  Arrival: " + f.arrival, AheadLine(f), "  Duration: " + f.duration,
      "  Stops: " + IntToString(f.stops), "  Price: " + f.price, DelayLine(f), p);
    HeadingPicks(n, f);
    if Truthy(f.delay) {
      NotPicked(DelayPrefix + f.delay.value, p, 0);
      SelectOne(DelayPrefix + f.delay.value, p);
    }
  }

  /** A block has one name line, its third. */
  lemma BlockName(n: nat, f: Flight)
    ensures Select(FlightBlock(n, f), NamePrefix) == [NamePrefix + f.name]
  {
    var p := NamePrefix;
    SelectLines(FlightHeading(n), BestLine(f), NamePrefix + f.name, "  Departure: " + f.departure,
      "  Arrival: " + f.arrival, AheadLine(f), "  Duration: " + f.duration,
      "  Stops: " + IntToString(f.stops), "  Price: " + f.price, DelayLine(f), p);
    NamePicks(n, f);
    if Truthy(f.delay) {
      NotPicked(DelayPrefix + f.delay.value, p, 2);
      SelectOne(DelayPrefix + f.delay.value, p);
    }
  }

  /** The headings `\nFlight 1:` ... `\nFlight k:`, in order. */
  function Headings(k: nat): (r: seq<string>)
    ensures |r| == k
    ensures forall i :: 0 <= i < k ==> r[i] == FlightHeading(i + 1)
  {
    if k == 0 then [] else Headings(k - 1) + [FlightHeading(k)]
  }

  /** The name lines of `fs`, in the order of `fs`. */
  function NameLines(fs: seq<Flight>): (r: seq<string>)
    ensures |r| == |fs|
    ensures forall i :: 0 <= i < |fs| ==> r[i] == NamePrefix + fs[i].name
    decreases |fs|
  {
    if fs == [] then [] else NameLines(fs[..|fs| - 1]) + [NamePrefix + fs[|fs| - 1].name]
  }

  /** The delay lines of the offers of `fs` that have a truthy delay, in the order of `fs`. */
  function DelayLines(fs: seq<Flight>): (r: seq<string>)
    ensures |r| <= |fs|
    ensures forall i :: 0 <= i < |r| ==> StartsWith(r[i], DelayPrefix)
    decreases |fs|
  {
    if fs == [] then [] else DelayLines(fs[..|fs| - 1]) + DelayLine(fs[|fs| - 1])
  }

  /** There are no delay lines exactly when no offer has a truthy delay. */
  lemma {:induction false} NoDelayLines(fs: seq<Flight>)
    ensures DelayLines(fs) == [] <==> forall i :: 0 <= i < |fs| ==> !Truthy(fs[i].delay)
    decreases |fs|
  {
    if fs != [] {
      var n := |fs| - 1;
      NoDelayLines(fs[..n]);
      assert DelayLines(fs) == DelayLines(fs[..n]) + DelayLine(fs[n]);
      if DelayLines(fs) == [] {
        forall i | 0 <= i < |fs|
          ensures !Truthy(fs[i].delay)
        {
          if i < n {
            assert fs[..n][i] == fs[i];
          }
        }
      }
      if forall i :: 0 <= i < |fs| ==> !Truthy(fs[i].delay) {
        assert forall i :: 0 <= i < n ==> !Truthy(fs[..n][i].delay);
        assert !Truthy(fs[n].delay);
      }
    }
  }

  lemma {:induction false} BlocksHeadings(fs: seq<Flight>)
    ensures Select(Blocks(fs), HeadingPrefix) == Headings(|fs|)
    decreases |fs|
  {
    if fs != [] {
      var n := |fs| - 1;
      BlocksHeadings(fs[..n]);
      SelectConcat(Blocks(fs[..n]), FlightBlock(n + 1, fs[n]), HeadingPrefix);
      BlockHeading(n + 1, fs[n]);
    }
  }

  lemma {:induction false} BlocksNames(fs: seq<Flight>)
    ensures Select(Blocks(fs), NamePrefix) == NameLines(fs)
    decreases |fs|
  {
    if fs != [] {
      var n := |fs| - 1;
      BlocksNames(fs[..n]);
      SelectConcat(Blocks(fs[..n]), FlightBlock(n + 1, fs[n]), NamePrefix);
      BlockName(n + 1, fs[n]);
    }
  }

  lemma {:induction false} BlocksDelays(fs: seq<Flight>)
    ensures Select(Blocks(fs), DelayPrefix) == DelayLines(fs)
    decreases |fs|
  {
    if fs != [] {
      var n := |fs| - 1;
      BlocksDelays(fs[..n]);
      SelectConcat(Blocks(fs[..n]), FlightBlock(n + 1, fs[n]), DelayPrefix);
      BlockDelay(n + 1, fs[n]);
    }
  }

  /**
   * The rendered lines of a result: exactly `min(10, |flights|)` blocks,
   * headed `\nFlight 1:` to `\nFlight k:` in order; the name lines are those
   * of the first `k` offers in input order (so no later offer appears); and a
   * delay line for exactly those of them whose delay is truthy.
   */
  lemma FormatLinesStructure(r: FlightResult)
    ensures |Shown(r.flights)| == if |r.flights| < MaxShown then |r.flights| else MaxShown
    ensures Select(FormatLines(r), HeadingPrefix) == Headings(|Shown(r.flights)|)
    ensures Select(FormatLines(r), NamePrefix) == NameLines(r.flights[..|Shown(r.flights)|])
    ensures Select(FormatLines(r), DelayPrefix) == DelayLines(r.flights[..|Shown(r.flights)|])
  {
    var header := PriceTrendLine(r.currentPrice);
    var fs := Shown(r.flights);
    SelectConcat([header], Blocks(fs), HeadingPrefix);
    SelectConcat([header], Blocks(fs), NamePrefix);
    SelectConcat([header], Blocks(fs), DelayPrefix);
    Mismatch(header, HeadingPrefix, 0);
    Mismatch(header, NamePrefix, 0);
    Mismatch(header, DelayPrefix, 0);
    SelectOne(header, HeadingPrefix);
    SelectOne(header, NamePrefix);
    SelectOne(header, DelayPrefix);
    BlocksHeadings(fs);
    BlocksNames(fs);
    BlocksDelays(fs);
  }

  /** Offers after the tenth never influence the text. */
  lemma LaterFlightsIgnored(price: string, first: seq<Flight>, rest: seq<Flight>)
    requires |first| == MaxShown
    ensures FormattedText(Some(FlightResult(price, first + rest))) == FormattedText(Some(FlightResult(price, first)))
  {
    assert (first + rest)[..MaxShown] == first;
  }
}
