/**
 * The tool `create_travel_plan`: recommends a seat class from the purpose and
 * the budget, runs the one-way or the round-trip search with it, and
 * assembles the plan as a list of parts joined by newlines.
 */
module TravelPlan {
  import opened Wrappers
  import opened Text
  import opened Provider
  import opened Formatter
  import opened Search

  /** The passenger counts the inner search runs with: the tools' defaults. */
  const DefaultPassengers := Passengers(1, 0, 0, 0)

  const ReturnPrefix := "- Return: "
  const InterestPrefix := "- For "
  const InterestSuffix := ": Customized activities will be recommended by your AI assistant"
  const InterestHeading := "\n## Interest-Based Recommendations"

  // Each tip is written as a short opening plus the rest of the sentence, so
  // that its first characters can be read off by the verifier.

  const BudgetTips := [
    "- Consider booking " + "economy flights at least 6 weeks in advance",
    "- Look for " + "accommodations with kitchenettes to save on meal costs",
    "- Research " + "free activities and attractions at your destination"]

  const ModerateTips := [
    "- Premium economy " + "seats offer better comfort for the price",
    "- Consider " + "mid-range hotels or vacation rentals",
    "- Mix of " + "paid attractions and free experiences recommended"]

  const LuxuryTips := [
    "- Business or " + "first-class seats recommended for maximum comfort",
    "- Luxury hotels " + "or private villas will enhance your experience",
    "- Consider " + "private tours and exclusive experiences"]

  /** The three branches of the budget recommendations. */
  datatype BudgetBranch = BudgetBranch | ModerateBranch | LuxuryBranch

  /** The seat class the plan searches with. */
  function RecommendSeat(purpose: string, budget: string): (seat: string)
    ensures seat in ValidSeatClasses
  {
    if Lower(purpose) == "business" && Lower(budget) == "luxury" then "business"
    else if Lower(budget) == "luxury" then "premium-economy"
    else "economy"
  }

  function TripType(ret: Option<string>): (t: string)
    ensures t == "round-trip" <==> ret.Some?
  {
    if ret.Some? then "round-trip" else "one-way"
  }

  /** The branch taken for `budget`: the `else` branch takes every budget other than the two named. */
  function BranchOf(budget: string): BudgetBranch
  {
    if Lower(budget) == "budget" then BudgetBranch
    else if Lower(budget) == "moderate" then ModerateBranch
    else LuxuryBranch
  }

  function Tips(b: BudgetBranch): seq<string>
  {
    match b
    case BudgetBranch => BudgetTips
    case ModerateBranch => ModerateTips
    case LuxuryBranch => LuxuryTips
  }

  /** The three tips the plan gives for `budget`. */
  function BudgetAdvice(budget: string): seq<string>
  {
    Tips(BranchOf(budget))
  }

  function InterestLine(interest: string): string
  {
    InterestPrefix + interest + InterestSuffix
  }

  /** The interest lines of `list`, in its order. */
  function InterestLines(list: seq<string>): (r: seq<string>)
    ensures |r| == |list|
    ensures forall k :: 0 <= k < |list| ==> r[k] == InterestLine(list[k])
    decreases |list|
  {
    if list == [] then [] else InterestLines(list[..|list| - 1]) + [InterestLine(list[|list| - 1])]
  }

  /** `[i.strip() for i in interests.split(",")]`. */
  function Interests(interests: string): (r: seq<string>)
    ensures |r| == |Split(interests, ',')|
    ensures forall k :: 0 <= k < |r| ==> r[k] == Strip(Split(interests, ',')[k])
  {
    var pieces := Split(interests, ',');
    seq(|pieces|, k requires 0 <= k < |pieces| => Strip(pieces[k]))
  }

  /** The interest part of the plan, present when `interests` is not empty. */
  function InterestSection(interests: string): seq<string>
  {
    if interests == "" then [] else [InterestHeading] + InterestLines(Interests(interests))
  }

  function ReturnLine(ret: Option<string>): seq<string>
  {
    if ret.Some? then [ReturnPrefix + ret.value] else []
  }

  /** The search the plan runs: a round trip exactly when a return date is given. */
  function PlanSearch(lib: Library, from: string, to: string, dep: string, ret: Option<string>,
                      purpose: string, budget: string): SearchRun
  {
    if ret.Some? then SearchRoundTripAsWritten(lib, from, to, dep, ret.value, DefaultPassengers, RecommendSeat(purpose, budget))
    else SearchOneWay(lib, from, to, dep, DefaultPassengers, RecommendSeat(purpose, budget))
  }

  function PlanHead(from: string, to: string, dep: string, ret: Option<string>): seq<string>
  {
    ["# Travel Plan: " + from + " to " + to, "\n## Trip Details", "- Trip Type: " + TripType(ret), "- Departure: " + dep]
  }

  function PlanMiddle(purpose: string, budget: string, found: string): seq<string>
  {
    ["- Purpose: " + purpose, "- Budget Level: " + budget, "\n## Flight Options", found,
     "\n## Travel Recommendations",
     "Based on your " + purpose + " trip and " + budget + " budget, here are some recommendations:"]
  }

  /** `plan_parts`, around the text `found` of the flight search. */
  function PlanParts(from: string, to: string, dep: string, ret: Option<string>,
                     purpose: string, budget: string, interests: string, found: string): seq<string>
  {
    PlanHead(from, to, dep, ret) + ReturnLine(ret) + PlanMiddle(purpose, budget, found)
    + BudgetAdvice(budget) + InterestSection(interests)
  }

  /** The text `create_travel_plan` returns. */
  function PlanText(lib: Library, from: string, to: string, dep: string, ret: Option<string>,
                    purpose: string, budget: string, interests: string): string
  {
    Join(PlanParts(from, to, dep, ret, purpose, budget, interests, PlanSearch(lib, from, to, dep, ret, purpose, budget).text), "\n")
  }

  // ---------------------------------------------------------------------------
  // The tool

  lemma AppendThree(before: seq<string>, a: string, b: string, c: string, after: seq<string>)
    requires after == before + [a] + [b] + [c]
    ensures after == before + [a, b, c]
  {
  }

  lemma Associate(a: seq<string>, b: seq<string>, c: seq<string>, d: seq<string>)
    requires d == a + b + c
    ensures d == a + (b + c)
  {
  }

  lemma AppendLine(base: seq<string>, list: seq<string>, k: nat, before: seq<string>, after: seq<string>)
    requires k < |list|
    requires before == base + InterestLines(list[..k])
    requires after == before + [InterestLine(list[k])]
    ensures after == base + InterestLines(list[..k + 1])
  {
    assert list[..k + 1][..k] == list[..k];
  }

  /** `create_travel_plan`: the plan text and the provider queries made on its way. */
  method CreateTravelPlan(lib: Library, from: string, to: string, dep: string, ret: Option<string>,
                          purpose: string, budget: string, interests: string)
    returns (text: string, calls: seq<Query>)
    ensures text == PlanText(lib, from, to, dep, ret, purpose, budget, interests)
    ensures calls == PlanSearch(lib, from, to, dep, ret, purpose, budget).calls
  {
    var isRoundTrip := ret.Some?;
    var seat := RecommendSeat(purpose, budget);
    var found: SearchRun;
    if isRoundTrip {
      found := SearchRoundTripAsWritten(lib, from, to, dep, ret.value, DefaultPassengers, seat);
    } else {
      found := SearchOneWay(lib, from, to, dep, DefaultPassengers, seat);
    }
    var parts := AssemblePlan(from, to, dep, ret, purpose, budget, interests, found.text);
    text := Join(parts, "\n");
    calls := found.calls;
  }

  /** Builds `plan_parts` part by part, as the tool does once the search has answered `found`. */
  method AssemblePlan(from: string, to: string, dep: string, ret: Option<string>,
                      purpose: string, budget: string, interests: string, found: string)
    returns (parts: seq<string>)
    ensures parts == PlanParts(from, to, dep, ret, purpose, budget, interests, found)
  {
    var isRoundTrip := ret.Some?;
    var tripType := TripType(ret);
    parts := ["# Travel Plan: " + from + " to " + to, "\n## Trip Details", "- Trip Type: " + tripType, "- Departure: " + dep];
    if isRoundTrip {
      parts := parts + [ReturnPrefix + ret.value];
    }
    assert parts == PlanHead(from, to, dep, ret) + ReturnLine(ret);
    parts := parts + PlanMiddle(purpose, budget, found);
    ghost var beforeTips := parts;
    if Lower(budget) == "budget" {
      parts := parts + [BudgetTips[0]];
      parts := parts + [BudgetTips[1]];
      parts := parts + [BudgetTips[2]];
      AppendThree(beforeTips, BudgetTips[0], BudgetTips[1], BudgetTips[2], parts);
    } else if Lower(budget) == "moderate" {
      parts := parts + [ModerateTips[0]];
      parts := parts + [ModerateTips[1]];
      parts := parts + [ModerateTips[2]];
      AppendThree(beforeTips, ModerateTips[0], ModerateTips[1], ModerateTips[2], parts);
    } else {
      parts := parts + [LuxuryTips[0]];
      parts := parts + [LuxuryTips[1]];
      parts := parts + [LuxuryTips[2]];
      AppendThree(beforeTips, LuxuryTips[0], LuxuryTips[1], LuxuryTips[2], parts);
    }
    assert parts == beforeTips + BudgetAdvice(budget);
    ghost var beforeInterests := parts;
    if interests != "" {
      parts := parts + [InterestHeading];
      var list := Interests(interests);
      ghost var base := parts;
      for k := 0 to |list|
        invariant parts == base + InterestLines(list[..k])
      {
        ghost var before := parts;
        parts := parts + [InterestLine(list[k])];
        AppendLine(base, list, k, before, parts);
      }
      assert list[..|list|] == list;
      Associate(beforeInterests, [InterestHeading], InterestLines(list), parts);
    }
    assert parts == beforeInterests + InterestSection(interests);
  }

  // ---------------------------------------------------------------------------
  // Properties

  /** The recommendation table: business for business travel on a luxury budget, else premium economy on a luxury budget, else economy. */
  lemma SeatRecommendationTable(purpose: string, budget: string)
    ensures RecommendSeat(purpose, budget) == "business" <==> Lower(purpose) == "business" && Lower(budget) == "luxury"
    ensures RecommendSeat(purpose, budget) == "premium-economy" <==> Lower(purpose) != "business" && Lower(budget) == "luxury"
    ensures RecommendSeat(purpose, budget) == "economy" <==> Lower(budget) != "luxury"
  {
  }

  /** The inner search never refuses the recommended seat class, and it asks the provider at most once, for a trip of the plan's type. */
  lemma PlanSearchShape(lib: Library, from: string, to: string, dep: string, ret: Option<string>, purpose: string, budget: string)
    ensures var r := PlanSearch(lib, from, to, dep, ret, purpose, budget);
      r.text != InvalidSeatMessage && |r.calls| <= 1
    ensures var r := PlanSearch(lib, from, to, dep, ret, purpose, budget);
      r.calls != [] ==>
        r.calls[0].trip == TripType(ret) && |r.calls[0].legs| == (if ret.Some? then 2 else 1) &&
        r.calls[0].seat == RecommendSeat(purpose, budget) && r.calls[0].passengers == DefaultPassengers
  {
    var seat := RecommendSeat(purpose, budget);
    if ret.Some? {
      RoundTripOutcomeAsWritten(lib, from, to, dep, ret.value, DefaultPassengers, seat);
    } else {
      OneWayOutcome(lib, from, to, dep, DefaultPassengers, seat);
    }
  }

  /** The three branches give three different lists of tips. */
  lemma TipsInjective(a: BudgetBranch, b: BudgetBranch)
    ensures Tips(a) == Tips(b) <==> a == b
  {
    var x, y, z := BudgetTips[0], ModerateTips[0], LuxuryTips[0];
    assert x[2] == 'C' && y[2] == 'P' && z[2] == 'B';
  }

  /**
   * The branch is chosen on the lower-cased budget: `budget` and `moderate`
   * get their own tips, and every other budget gets the luxury tips.
   */
  lemma BudgetBranches(budget: string)
    ensures BudgetAdvice(budget) == BudgetTips <==> Lower(budget) == "budget"
    ensures BudgetAdvice(budget) == ModerateTips <==> Lower(budget) == "moderate"
    ensures BudgetAdvice(budget) == LuxuryTips <==> Lower(budget) != "budget" && Lower(budget) != "moderate"
    ensures BudgetAdvice(Lower(budget)) == BudgetAdvice(budget)
  {
    TipsInjective(BranchOf(budget), BudgetBranch);
    TipsInjective(BranchOf(budget), ModerateBranch);
    TipsInjective(BranchOf(budget), LuxuryBranch);
    LowerIdempotent(budget);
  }


  // ---------------------------------------------------------------------------
  // The parts of the plan

  /** Every text a search returns opens with a letter: none of them looks like a list item. */
  lemma SearchTextStart(lib: Library, from: string, to: string, dep: string, ret: Option<string>, purpose: string, budget: string)
    ensures var t := PlanSearch(lib, from, to, dep, ret, purpose, budget).text; t != [] && t[0] != '-'
  {
    var t := PlanSearch(lib, from, to, dep, ret, purpose, budget).text;
    var seat := RecommendSeat(purpose, budget);
    var q := if ret.Some? then RoundTripQuery(from, to, dep, ret.value, DefaultPassengers, seat)
             else OneWayQuery(from, to, dep, DefaultPassengers, seat);
    if lib.getFlights(q).Returned? {
      SentinelIffNoFlights(lib.getFlights(q).value);
    }
    if StartsWith(t, ErrorPrefix) {
      assert t[0] == ErrorPrefix[0];
    } else {
      assert InvalidSeatMessage[0] == 'I' && DateOrderMessage[0] == 'R';
      assert t == InvalidSeatMessage || t == DateOrderMessage || (lib.getFlights(q).Returned? && t == FormattedText(lib.getFlights(q).value)) by {
        if ret.Some? {
          RoundTripOutcomeAsWritten(lib, from, to, dep, ret.value, DefaultPassengers, seat);
        } else {
          OneWayOutcome(lib, from, to, dep, DefaultPassengers, seat);
        }
      }
    }
  }

  /** The two prefixes the plan's structure is read by. */
  predicate ListPrefix(p: string)
  {
    p == ReturnPrefix || p == InterestPrefix
  }

  lemma HeadSelect(from: string, to: string, dep: string, ret: Option<string>, p: string)
    requires ListPrefix(p)
    ensures Select(PlanHead(from, to, dep, ret), p) == []
  {
    var h := PlanHead(from, to, dep, ret);
    Mismatch(h[0], p, 0);
    Mismatch(h[1], p, 0);
    Mismatch(h[2], p, 2);
    Mismatch(h[3], p, 2);
    SelectNone(h, p);
  }

  lemma MiddleSelect(purpose: string, budget: string, found: string, p: string)
    requires ListPrefix(p)
    requires found == [] || found[0] != '-'
    ensures Select(PlanMiddle(purpose, budget, found), p) == []
  {
    var m := PlanMiddle(purpose, budget, found);
    Mismatch(m[0], p, 2);
    Mismatch(m[1], p, 2);
    Mismatch(m[2], p, 0);
    Mismatch(m[3], p, 0);
    Mismatch(m[4], p, 0);
    Mismatch(m[5], p, 0);
    SelectNone(m, p);
  }

  lemma TipsSelect(b: BudgetBranch, p: string)
    requires ListPrefix(p)
    ensures Select(Tips(b), p) == []
  {
    var t := Tips(b);
    var i := if p == InterestPrefix then 2 else 4;
    Mismatch(t[0], p, 2);
    Mismatch(t[1], p, 2);
    if b == BudgetBranch {
      Mismatch(t[2], p, i);
    } else {
      Mismatch(t[2], p, 2);
    }
    SelectNone(t, p);
  }

  /** The interest lines are the parts that start with `- For `. */
  lemma {:induction false} InterestLinesSelect(list: seq<string>, p: string)
    requires ListPrefix(p)
    ensures Select(InterestLines(list), p) == if p == InterestPrefix then InterestLines(list) else []
    decreases |list|
  {
    if list != [] {
      var n := |list| - 1;
      InterestLinesSelect(list[..n], p);
      SelectConcat(InterestLines(list[..n]), [InterestLine(list[n])], p);
      InterestLinePick(list[n], p);
    }
  }

  lemma InterestLinePick(interest: string, p: string)
    requires ListPrefix(p)
    ensures Select([InterestLine(interest)], p) == if p == InterestPrefix then [InterestLine(interest)] else []
  {
    var line := InterestLine(interest);
    SelectOne(line, p);
    if p == InterestPrefix {
      assert line[..|p|] == p;
    } else {
      Mismatch(line, p, 2);
    }
  }

  lemma InterestSectionSelect(interests: string, p: string)
    requires ListPrefix(p)
    ensures Select(InterestSection(interests), p) ==
      if p == InterestPrefix && interests != "" then InterestLines(Interests(interests)) else []
  {
    if interests != "" {
      SelectConcat([InterestHeading], InterestLines(Interests(interests)), p);
      Mismatch(InterestHeading, p, 0);
      SelectOne(InterestHeading, p);
      InterestLinesSelect(Interests(interests), p);
    }
  }

  lemma ReturnLineSelect(ret: Option<string>, p: string)
    requires ListPrefix(p)
    ensures Select(ReturnLine(ret), p) == if p == ReturnPrefix then ReturnLine(ret) else []
  {
    if ret.Some? {
      var line := ReturnPrefix + ret.value;
      SelectOne(line, p);
      if p == ReturnPrefix {
        assert line[..|p|] == p;
      } else {
        Mismatch(line, p, 2);
      }
    }
  }

  /** Of five consecutive segments, only the second and the fifth contribute lines starting with `p`. */
  lemma SelectFive(h: seq<string>, r: seq<string>, m: seq<string>, t: seq<string>, i: seq<string>, p: string)
    requires Select(h, p) == [] && Select(m, p) == [] && Select(t, p) == []
    ensures Select(h + r + m + t + i, p) == Select(r, p) + Select(i, p)
  {
    SelectConcat(h + r + m + t, i, p);
    SelectConcat(h + r + m, t, p);
    SelectConcat(h + r, m, p);
    SelectConcat(h, r, p);
  }

  /** Selecting the return part and the interest lines from the parts of a plan. */
  lemma PlanPartsSelect(from: string, to: string, dep: string, ret: Option<string>,
                        purpose: string, budget: string, interests: string, found: string, p: string)
    requires ListPrefix(p)
    requires found == [] || found[0] != '-'
    ensures Select(PlanParts(from, to, dep, ret, purpose, budget, interests, found), p) ==
      Select(ReturnLine(ret), p) + Select(InterestSection(interests), p)
  {
    HeadSelect(from, to, dep, ret, p);
    MiddleSelect(purpose, budget, found, p);
    TipsSelect(BranchOf(budget), p);
    SelectFive(PlanHead(from, to, dep, ret), ReturnLine(ret), PlanMiddle(purpose, budget, found),
      BudgetAdvice(budget), InterestSection(interests), p);
  }

  /**
   * The plan of a tool call has a `- Return:` part exactly for a round trip,
   * holding the return date, and its `- For` parts are the interest lines of
   * a non-empty `interests`, in order.
   */
  lemma PlanStructure(lib: Library, from: string, to: string, dep: string, ret: Option<string>,
                      purpose: string, budget: string, interests: string)
    ensures var parts := PlanParts(from, to, dep, ret, purpose, budget, interests, PlanSearch(lib, from, to, dep, ret, purpose, budget).text);
      Select(parts, ReturnPrefix) == (if ret.Some? then [ReturnPrefix + ret.value] else [])
    ensures var parts := PlanParts(from, to, dep, ret, purpose, budget, interests, PlanSearch(lib, from, to, dep, ret, purpose, budget).text);
      Select(parts, InterestPrefix) == if interests == "" then [] else InterestLines(Interests(interests))
  {
    var found := PlanSearch(lib, from, to, dep, ret, purpose, budget).text;
    SearchTextStart(lib, from, to, dep, ret, purpose, budget);
    PlanPartsSelect(from, to, dep, ret, purpose, budget, interests, found, ReturnPrefix);
    PlanPartsSelect(from, to, dep, ret, purpose, budget, interests, found, InterestPrefix);
    ReturnLineSelect(ret, ReturnPrefix);
    ReturnLineSelect(ret, InterestPrefix);
    InterestSectionSelect(interests, ReturnPrefix);
    InterestSectionSelect(interests, InterestPrefix);
  }

  /**
   * A non-empty `interests` gives one interest line per comma-separated
   * piece, one more than it has commas, each naming the stripped piece.
   */
  lemma InterestCount(interests: string)
    ensures var lines := InterestLines(Interests(interests));
      |lines| == multiset(interests)[','] + 1 &&
      forall k :: 0 <= k < |lines| ==> lines[k] == InterestLine(Strip(Split(interests, ',')[k]))
  {
    SplitCount(interests, ',');
  }

  /**
   * A plan departing on `2024-9-01` and returning on `2024-10-01` gets the
   * date-order refusal of the round trip as written, and the provider is
   * not asked.
   */
  lemma PlanRefusesUnpaddedLaterReturn(lib: Library, from: string, to: string, purpose: string, budget: string)
    ensures PlanSearch(lib, from, to, "2024-9-01", Some("2024-10-01"), purpose, budget) == SearchRun(DateOrderMessage, [])
  {
    AsWrittenRejectsLaterReturn();
  }
}
