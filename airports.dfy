/**
 * The resource `get_airport_codes`: a case-insensitive substring search over
 * a fixed table of 27 airports, listing the matching descriptions in table
 * order, or a fallback message when nothing matches.
 */
module Airports {
  import opened Text

  /** One table entry: the lower-case key and the description listed for it. */
  datatype Airport = Airport(code: string, description: string)

  // Each description is written as its code part plus the rest, and the
  // fallback message as its first words plus the rest, so that their first
  // characters can be read off by the verifier.

  /** The table, in the insertion order of the dictionary, which is its iteration order. */
  const Table := [
    Airport("nyc", "NYC - " + "New York City (all airports)"),
    Airport("jfk", "JFK - " + "John F. Kennedy International Airport, New York"),
    Airport("lga", "LGA - " + "LaGuardia Airport, New York"),
    Airport("ewr", "EWR - " + "Newark Liberty International Airport, New Jersey"),
    Airport("lax", "LAX - " + "Los Angeles International Airport, California"),
    Airport("sfo", "SFO - " + "San Francisco International Airport, California"),
    Airport("ord", "ORD - " + "O'Hare International Airport, Chicago"),
    Airport("dfw", "DFW - " + "Dallas/Fort Worth International Airport, Texas"),
    Airport("mia", "MIA - " + "Miami International Airport, Florida"),
    Airport("sea", "SEA - " + "Seattle-Tacoma International Airport, Washington"),
    Airport("las", "LAS - " + "Harry Reid International Airport, Las Vegas"),
    Airport("atl", "ATL - " + "Hartsfield-Jackson Atlanta International Airport, Georgia"),
    Airport("den", "DEN - " + "Denver International Airport, Colorado"),
    Airport("bos", "BOS - " + "Boston Logan International Airport, Massachusetts"),
    Airport("lhr", "LHR - " + "London Heathrow Airport, United Kingdom"),
    Airport("cdg", "CDG - " + "Charles de Gaulle Airport, Paris, France"),
    Airport("fra", "FRA - " + "Frankfurt Airport, Germany"),
    Airport("ams", "AMS - " + "Amsterdam Airport Schiphol, Netherlands"),
    Airport("hnd", "HND - " + "Tokyo Haneda Airport, Japan"),
    Airport("nrt", "NRT - " + "Narita International Airport, Tokyo, Japan"),
    Airport("pek", "PEK - " + "Beijing Capital International Airport, China"),
    Airport("pvg", "PVG - " + "Shanghai Pudong International Airport, China"),
    Airport("syd", "SYD - " + "Sydney Airport, Australia"),
    Airport("sin", "SIN - " + "Singapore Changi Airport, Singapore"),
    Airport("dxb", "DXB - " + "Dubai International Airport, United Arab Emirates"),
    Airport("tpe", "TPE - " + "Taiwan Taoyuan International Airport, Taiwan"),
    Airport("myj", "MYJ - " + "Matsuyama Airport, Japan")]

  const NoMatchMessage := "No matching " + "airports found. Try a different search term."

  /** The entry is listed for the lower-cased query `q`. */
  predicate Matches(q: string, a: Airport)
  {
    IsSubstring(q, Lower(a.code)) || IsSubstring(q, Lower(a.description))
  }

  /** The descriptions of the entries of `entries` that match `q`, in their order. */
  function Filter(entries: seq<Airport>, q: string): seq<string>
    decreases |entries|
  {
    if entries == [] then []
    else
      var n := |entries| - 1;
      Filter(entries[..n], q) + (if Matches(q, entries[n]) then [entries[n].description] else [])
  }

  function Descriptions(entries: seq<Airport>): (r: seq<string>)
    ensures |r| == |entries|
    ensures forall k :: 0 <= k < |entries| ==> r[k] == entries[k].description
    decreases |entries|
  {
    if entries == [] then [] else Descriptions(entries[..|entries| - 1]) + [entries[|entries| - 1].description]
  }

  /** The text `get_airport_codes(query)` returns. */
  function AirportText(query: string): string
  {
    var results := Filter(Table, Lower(query));
    if results == [] then NoMatchMessage else Join(results, "\n")
  }

  lemma FilterStep(entries: seq<Airport>, q: string, i: nat, before: seq<string>, after: seq<string>)
    requires i < |entries|
    requires before == Filter(entries[..i], q)
    requires after == before + (if Matches(q, entries[i]) then [entries[i].description] else [])
    ensures after == Filter(entries[..i + 1], q)
  {
    assert entries[..i + 1][..i] == entries[..i];
  }

  /** Walks the table, keeping each matching description, as the source loop does. */
  method GetAirportCodes(query: string) returns (text: string)
    ensures text == AirportText(query)
  {
    var q := Lower(query);
    var results: seq<string> := [];
    for i := 0 to |Table|
      invariant results == Filter(Table[..i], q)
    {
      ghost var before := results;
      var entry := Table[i];
      if IsSubstring(q, Lower(entry.code)) || IsSubstring(q, Lower(entry.description)) {
        results := results + [entry.description];
      }
      FilterStep(Table, q, i, before, results);
    }
    assert Table[..|Table|] == Table;
    if results == [] {
      return NoMatchMessage;
    }
    text := Join(results, "\n");
  }

  // ---------------------------------------------------------------------------
  // Properties

  /** Filtering a concatenation filters each part, keeping their order. */
  lemma {:induction false} FilterConcat(a: seq<Airport>, b: seq<Airport>, q: string)
    ensures Filter(a + b, q) == Filter(a, q) + Filter(b, q)
    decreases |b|
  {
    if b != [] {
      var n := |b| - 1;
      FilterConcat(a, b[..n], q);
      assert (a + b)[..|a| + n] == a + b[..n];
      assert (a + b)[|a| + n] == b[n];
    } else {
      assert a + b == a;
    }
  }

  /** A description is listed exactly when some entry with it matches. */
  lemma {:induction false} FilterMembers(entries: seq<Airport>, q: string, d: string)
    ensures d in Filter(entries, q) <==>
      exists k :: 0 <= k < |entries| && entries[k].description == d && Matches(q, entries[k])
    decreases |entries|
  {
    if entries != [] {
      var n := |entries| - 1;
      FilterMembers(entries[..n], q, d);
      if d in Filter(entries[..n], q) {
        var k :| 0 <= k < n && entries[..n][k].description == d && Matches(q, entries[..n][k]);
        assert entries[k] == entries[..n][k];
      }
      if exists k :: 0 <= k < |entries| && entries[k].description == d && Matches(q, entries[k]) {
        var k :| 0 <= k < |entries| && entries[k].description == d && Matches(q, entries[k]);
        if k < n {
          assert entries[..n][k] == entries[k];
        }
      }
    }
  }

  /** The empty query is contained in every text, so it lists every entry in order. */
  lemma {:induction false} EmptyQueryListsAll(entries: seq<Airport>)
    ensures Filter(entries, "") == Descriptions(entries)
    decreases |entries|
  {
    if entries != [] {
      EmptyQueryListsAll(entries[..|entries| - 1]);
      EmptyIsSubstring(Lower(entries[|entries| - 1].code));
    }
  }

  /** `c` is a capital letter whose lower case is `l`. */
  predicate CapitalOf(c: char, l: char)
  {
    'A' <= c <= 'Z' && LowerChar(c) == l
  }

  /** The description opens with the entry's three-letter code in capitals, then a blank. */
  predicate Headed(a: Airport)
  {
    && |a.code| == 3 && |a.description| > 3 && a.description[3] == ' '
    && CapitalOf(a.description[0], a.code[0])
    && CapitalOf(a.description[1], a.code[1])
    && CapitalOf(a.description[2], a.code[2])
  }

  /** Every description of the table opens with its own three-letter code in capitals and a blank. */
  lemma TableShape()
    ensures forall k :: 0 <= k < |Table| ==> Headed(Table[k])
  {
  }

  lemma BlankAfterCode(k: nat)
    requires k < |Table|
    ensures |Table[k].description| > 3 && Table[k].description[3] == ' '
  {
    TableShape();
    assert Headed(Table[k]);
  }

  /** The fallback message is returned exactly when no entry matches. */
  lemma FallbackIffNoMatch(query: string)
    ensures AirportText(query) == NoMatchMessage <==> Filter(Table, Lower(query)) == []
  {
    var results := Filter(Table, Lower(query));
    if results != [] {
      FilterMembers(Table, Lower(query), results[0]);
      var k :| 0 <= k < |Table| && Table[k].description == results[0] && Matches(Lower(query), Table[k]);
      BlankAfterCode(k);
      JoinStartsWithFirst(results, "\n");
      var text := Join(results, "\n");
      assert text[..|results[0]|] == results[0];
      assert text[3] == ' ';
      assert NoMatchMessage[3] == 'm';
    }
  }

  /** The search ignores the case of the query. */
  lemma CaseInsensitive(query: string)
    ensures AirportText(Lower(query)) == AirportText(query)
  {
    LowerIdempotent(query);
  }

  /** The empty query lists all 27 descriptions, in table order. */
  lemma EmptyQuery()
    ensures |Table| == 27
    ensures AirportText("") == Join(Descriptions(Table), "\n")
  {
    assert Lower("") == "";
    EmptyQueryListsAll(Table);
  }
}
