/**
 * The airline customer-service tools of the travel agent: a fixed flight
 * table searched by date and route, a best-flight choice, and an itinerary
 * table that bookings insert into and cancellations delete from, plus the
 * per-thread message history its chat callable keeps.
 */
module Travel {
  import opened Wrappers
  import Chat

  const Year := 2025
  const Month := 9

  datatype Date = Date(year: int, month: int, day: int, hour: int)

  /** Duration and price are declared `float` but every stored value is integral. */
  datatype Flight = Flight(
    flightId: string,
    dateTime: Date,
    origin: string,
    destination: string,
    duration: int,
    price: int)

  datatype Itinerary = Itinerary(confirmationNumber: string, flight: Flight)

  /**
   * The raised errors: `ValueError("No matching flight found!")`, the
   * IndexError of `sorted(...)[0]` on no flights, and
   * `ValueError("Cannot find the itinerary, ...")`.
   */
  datatype TravelError = NoMatchingFlight | NoFlightToPick | ItineraryNotFound

  /** `flight_database`, in insertion order; each key is the flight's own id. */
  const FlightDatabase: seq<Flight> := [
    Flight("DA123", Date(Year, Month, 1, 1), "SFO", "JFK", 3, 200),
    Flight("DA125", Date(Year, Month, 1, 7), "SFO", "JFK", 9, 500),
    Flight("DA456", Date(Year, Month, 1, 1), "SFO", "SNA", 2, 100),
    Flight("DA460", Date(Year, Month, 1, 9), "SFO", "SNA", 2, 120)
  ]

  // ----- Searching the flight table -----

  /** A flight answers a query when year, month, day, origin and destination agree; the hour is not compared. */
  predicate Matches(flight: Flight, date: Date, origin: string, destination: string)
  {
    && flight.dateTime.year == date.year
    && flight.dateTime.month == date.month
    && flight.dateTime.day == date.day
    && flight.origin == origin
    && flight.destination == destination
  }

  /** The matching flights of a table, in table order. */
  function MatchingFlights(table: seq<Flight>, date: Date, origin: string, destination: string): seq<Flight>
  {
    if table == [] then []
    else
      var init, last := table[..|table| - 1], table[|table| - 1];
      MatchingFlights(init, date, origin, destination)
        + (if Matches(last, date, origin, destination) then [last] else [])
  }

  /** A flight is found exactly when it is in the table and matches the query. */
  lemma {:induction false} MatchingFlightsMembers(table: seq<Flight>, date: Date, origin: string, destination: string)
    ensures forall f :: f in MatchingFlights(table, date, origin, destination)
                        <==> f in table && Matches(f, date, origin, destination)
  {
    if table != [] {
      var init := table[..|table| - 1];
      MatchingFlightsMembers(init, date, origin, destination);
      assert table == init + [table[|table| - 1]];
    }
  }

  /** Searching keeps table order: the matches in `a + b` are those in `a` followed by those in `b`. */
  lemma {:induction false} MatchingFlightsConcat(a: seq<Flight>, b: seq<Flight>, date: Date, origin: string, destination: string)
    ensures MatchingFlights(a + b, date, origin, destination)
            == MatchingFlights(a, date, origin, destination) + MatchingFlights(b, date, origin, destination)
  {
    if b == [] {
      assert a + b == a;
    } else {
      var binit := b[..|b| - 1];
      assert (a + b)[..|a + b| - 1] == a + binit;
      assert (a + b)[|a + b| - 1] == b[|b| - 1];
      MatchingFlightsConcat(a, binit, date, origin, destination);
    }
  }

  /** The hour of the queried date never changes the answer. */
  lemma {:induction false} MatchingFlightsIgnoresHour(table: seq<Flight>, date: Date, hour: int, origin: string, destination: string)
    ensures MatchingFlights(table, date.(hour := hour), origin, destination)
            == MatchingFlights(table, date, origin, destination)
  {
    if table != [] {
      MatchingFlightsIgnoresHour(table[..|table| - 1], date, hour, origin, destination);
    }
  }

  // ----- Picking the best flight -----

  /** `(a.duration, a.price) < (b.duration, b.price)` as Python compares tuples. */
  predicate KeyLess(a: Flight, b: Flight)
  {
    a.duration < b.duration || (a.duration == b.duration && a.price < b.price)
  }

  /**
   * The position of the first flight with the least (duration, price): every
   * earlier flight has a strictly greater key and no flight has a smaller one.
   * A stable sort puts exactly this flight first.
   */
  function BestIndex(flights: seq<Flight>): (k: nat)
    requires flights != []
    ensures k < |flights|
    ensures forall j :: 0 <= j < k ==> KeyLess(flights[k], flights[j])
    ensures forall j :: 0 <= j < |flights| ==> !KeyLess(flights[j], flights[k])
  {
    if |flights| == 1 then 0
    else
      var k := 1 + BestIndex(flights[1..]);
      if KeyLess(flights[k], flights[0]) then k else 0
  }

  /** Only one position can be the first least flight. */
  lemma FirstLeastIsUnique(flights: seq<Flight>, k: nat)
    requires k < |flights|
    requires forall j :: 0 <= j < k ==> KeyLess(flights[k], flights[j])
    requires forall j :: 0 <= j < |flights| ==> !KeyLess(flights[j], flights[k])
    ensures k == BestIndex(flights)
  {
    var b := BestIndex(flights);
    assert !KeyLess(flights[b], flights[k]) && !KeyLess(flights[k], flights[b]);
  }

  /** `pick_flight`: `sorted(flights, key=(duration, price))[0]`. */
  function PickFlight(flights: seq<Flight>): (r: Result<Flight, TravelError>)
    ensures r.Failure? <==> flights == []
    ensures r.Success? ==> r.value in flights
    ensures r.Success? ==> forall f :: f in flights ==> !KeyLess(f, r.value)
  {
    if flights == [] then Failure(NoFlightToPick) else Success(flights[BestIndex(flights)])
  }

  /**
   * Ties go to the earliest flight: if a flight is picked, every flight before
   * its first occurrence has a strictly greater key.
   */
  lemma PickFlightStable(flights: seq<Flight>, k: nat)
    requires k < |flights|
    requires forall j :: 0 <= j < k ==> KeyLess(flights[k], flights[j])
    requires forall j :: 0 <= j < |flights| ==> !KeyLess(flights[j], flights[k])
    ensures PickFlight(flights) == Success(flights[k])
  {
    FirstLeastIsUnique(flights, k);
  }

  /** The flight itself when it answers the query, nothing otherwise. */
  function Kept(flight: Flight, date: Date, origin: string, destination: string): seq<Flight>
  {
    if Matches(flight, date, origin, destination) then [flight] else []
  }

  /** Searching the fixed table, flight by flight. */
  lemma FlightDatabaseSearch(date: Date, origin: string, destination: string)
    ensures MatchingFlights(FlightDatabase, date, origin, destination)
            == Kept(FlightDatabase[0], date, origin, destination) + Kept(FlightDatabase[1], date, origin, destination)
               + Kept(FlightDatabase[2], date, origin, destination) + Kept(FlightDatabase[3], date, origin, destination)
  {
    var t := FlightDatabase;
    assert t[..1][..0] == [];
    assert MatchingFlights(t[..1], date, origin, destination) == Kept(t[0], date, origin, destination);
    assert t[..2][..1] == t[..1];
    assert MatchingFlights(t[..2], date, origin, destination)
           == Kept(t[0], date, origin, destination) + Kept(t[1], date, origin, destination);
    assert t[..3][..2] == t[..2];
    assert MatchingFlights(t[..3], date, origin, destination)
           == Kept(t[0], date, origin, destination) + Kept(t[1], date, origin, destination)
              + Kept(t[2], date, origin, destination);
    assert t[..3] == t[..|t| - 1];
  }

  /** On 1 September 2025, SFO to JFK finds DA123 and DA125, and DA123 is picked. */
  lemma SampleSearchToJfk(hour: int)
    ensures MatchingFlights(FlightDatabase, Date(2025, 9, 1, hour), "SFO", "JFK")
            == [FlightDatabase[0], FlightDatabase[1]]
    ensures PickFlight(MatchingFlights(FlightDatabase, Date(2025, 9, 1, hour), "SFO", "JFK"))
            == Success(FlightDatabase[0])
  {
    var t := FlightDatabase;
    FlightDatabaseSearch(Date(2025, 9, 1, hour), "SFO", "JFK");
    assert t[2].destination == "SNA" != "JFK";
    PickFlightStable([t[0], t[1]], 0);
  }

  /** On 1 September 2025, SFO to SNA finds DA456 and DA460, and DA456 is picked. */
  lemma SampleSearchToSna(hour: int)
    ensures MatchingFlights(FlightDatabase, Date(2025, 9, 1, hour), "SFO", "SNA")
            == [FlightDatabase[2], FlightDatabase[3]]
    ensures PickFlight(MatchingFlights(FlightDatabase, Date(2025, 9, 1, hour), "SFO", "SNA"))
            == Success(FlightDatabase[2])
  {
    var t := FlightDatabase;
    FlightDatabaseSearch(Date(2025, 9, 1, hour), "SFO", "SNA");
    assert t[0].destination == "JFK" != "SNA";
    PickFlightStable([t[2], t[3]], 0);
  }

  /** No flight leaves on 2 September 2025, so that search finds nothing. */
  lemma SampleSearchNoFlight(hour: int, origin: string, destination: string)
    ensures MatchingFlights(FlightDatabase, Date(2025, 9, 2, hour), origin, destination) == []
  {
    FlightDatabaseSearch(Date(2025, 9, 2, hour), origin, destination);
  }

  // ----- Confirmation numbers -----

  /** `string.ascii_lowercase + string.digits` has 36 characters. */
  const AlphabetSize := 36
  const IdLength := 8

  /** One draw of `random.choices`: a position in the alphabet. */
  type Pick = i: int | 0 <= i < AlphabetSize

  /** A character of `string.ascii_lowercase + string.digits`. */
  predicate IdChar(c: char)
  {
    'a' <= c <= 'z' || '0' <= c <= '9'
  }

  /** A confirmation number `_generate_id()` can produce: 8 characters from `a-z0-9`. */
  predicate ValidId(s: string)
  {
    |s| == IdLength && forall i :: 0 <= i < |s| ==> IdChar(s[i])
  }

  /** The character at position `i` of `string.ascii_lowercase + string.digits`. */
  function AlphabetChar(i: Pick): (c: char)
    ensures IdChar(c)
  {
    if i < 26 then ('a' as int + i) as char else ('0' as int + (i - 26)) as char
  }

  /** The position of an alphabet character: the inverse of `AlphabetChar`. */
  function AlphabetIndex(c: char): (i: Pick)
    requires IdChar(c)
    ensures AlphabetChar(i) == c
  {
    if 'a' <= c <= 'z' then (c as int - 'a' as int) else 26 + (c as int - '0' as int)
  }

  /**
   * `_generate_id(length)`: the characters at the drawn positions; the random
   * choices are supplied, one per character.
   */
  function GenerateId(picks: seq<Pick>): (id: string)
    ensures |id| == |picks|
    ensures forall i :: 0 <= i < |id| ==> IdChar(id[i])
  {
    if picks == [] then [] else [AlphabetChar(picks[0])] + GenerateId(picks[1..])
  }

  /** The draws that produce a given id. */
  function PicksOf(s: string): (picks: seq<Pick>)
    requires forall i :: 0 <= i < |s| ==> IdChar(s[i])
    ensures |picks| == |s|
  {
    if s == [] then [] else [AlphabetIndex(s[0])] + PicksOf(s[1..])
  }

  /** Every id over the alphabet is drawn by some choices: `_generate_id` can produce any valid id. */
  lemma {:induction false} GenerateIdOnto(s: string)
    requires forall i :: 0 <= i < |s| ==> IdChar(s[i])
    ensures GenerateId(PicksOf(s)) == s
  {
    if s != [] {
      GenerateIdOnto(s[1..]);
      assert PicksOf(s)[1..] == PicksOf(s[1..]);
    }
  }

  /** The draws can be read back from the id, so different draws give different ids. */
  lemma {:induction false} GenerateIdInjective(picks: seq<Pick>)
    ensures PicksOf(GenerateId(picks)) == picks
  {
    if picks != [] {
      var id := GenerateId(picks);
      assert id[1..] == GenerateId(picks[1..]);
      GenerateIdInjective(picks[1..]);
      assert AlphabetIndex(AlphabetChar(picks[0])) == picks[0];
    }
  }

  // ----- The itinerary table as a value -----

  /** Every entry is keyed by its own confirmation number, a valid id. */
  ghost predicate WellFormed(db: map<string, Itinerary>)
  {
    forall n :: n in db ==> db[n].confirmationNumber == n && ValidId(n)
  }

  /** `itinery_database[number] = Itinerary(number, flight)`. */
  function Booked(db: map<string, Itinerary>, number: string, flight: Flight): (r: map<string, Itinerary>)
    ensures number in r && r[number] == Itinerary(number, flight)
    ensures forall n :: n != number ==> (n in r <==> n in db)
    ensures forall n :: n in db && n != number ==> r[n] == db[n]
    ensures number !in db ==> |r| == |db| + 1
  {
    db[number := Itinerary(number, flight)]
  }

  /** `del itinery_database[number]`. */
  function Cancelled(db: map<string, Itinerary>, number: string): (r: map<string, Itinerary>)
    ensures r.Keys == db.Keys - {number}
    ensures forall n :: n in r ==> r[n] == db[n]
    ensures number in db ==> |r| == |db| - 1
  {
    db - {number}
  }

  /** Booking a fresh valid id keeps the table well formed. */
  lemma BookedWellFormed(db: map<string, Itinerary>, number: string, flight: Flight)
    requires WellFormed(db) && ValidId(number)
    ensures WellFormed(Booked(db, number, flight))
  {
  }

  /** Cancelling keeps the table well formed. */
  lemma CancelledWellFormed(db: map<string, Itinerary>, number: string)
    requires WellFormed(db)
    ensures WellFormed(Cancelled(db, number))
  {
  }

  /** Cancelling a booking just made restores the table exactly. */
  lemma CancelUndoesBook(db: map<string, Itinerary>, number: string, flight: Flight)
    requires number !in db
    ensures Cancelled(Booked(db, number, flight), number) == db
  {
    assert Cancelled(Booked(db, number, flight), number).Keys == db.Keys;
  }

  /** Rebooking a cancelled itinerary under its own number restores the table exactly. */
  lemma BookUndoesCancel(db: map<string, Itinerary>, number: string)
    requires WellFormed(db) && number in db
    ensures Booked(Cancelled(db, number), number, db[number].flight) == db
  {
    assert Booked(Cancelled(db, number), number, db[number].flight).Keys == db.Keys;
  }

  /** The store owning the flight table and the itinerary table. */
  class Airline {
    const flights: seq<Flight>
    var itineraries: map<string, Itinerary>

    ghost predicate Valid()
      reads this
    {
      WellFormed(itineraries)
    }

    constructor ()
      ensures Valid()
      ensures flights == FlightDatabase && itineraries == map[]
    {
      flights := FlightDatabase;
      itineraries := map[];
    }

    /** `fetch_flight_info`: the matching flights in table order, or an error when none match. */
    method FetchFlightInfo(date: Date, origin: string, destination: string)
      returns (r: Result<seq<Flight>, TravelError>)
      ensures r.Success? ==> r.value != []
      ensures r.Failure? <==> MatchingFlights(flights, date, origin, destination) == []
      ensures r.Failure? ==> r.error == NoMatchingFlight
      ensures r.Success? ==> r.value == MatchingFlights(flights, date, origin, destination)
    {
      var found: seq<Flight> := [];
      for i := 0 to |flights|
        invariant found == MatchingFlights(flights[..i], date, origin, destination)
      {
        var flight := flights[i];
        assert flights[..i + 1][..i] == flights[..i];
        if Matches(flight, date, origin, destination) {
          found := found + [flight];
        }
      }
      assert flights[..|flights|] == flights;
      if |found| == 0 {
        return Failure(NoMatchingFlight);
      }
      return Success(found);
    }

    /** `fetch_itinerary`: the stored itinerary, or `None`. */
    function FetchItinerary(number: string): (r: Option<Itinerary>)
      reads this
      ensures r.Some? <==> number in itineraries
      ensures r.Some? ==> r.value == itineraries[number]
      ensures Valid() && r.Some? ==> r.value.confirmationNumber == number
    {
      if number in itineraries then Some(itineraries[number]) else None
    }

    /**
     * `book_flight`: draw ids until one is unused, then insert the itinerary.
     * `draws` are the successive outputs of `random.choices`; the source loops
     * until a draw is unused, so one of them must be.
     */
    method BookFlight(flight: Flight, draws: seq<seq<Pick>>) returns (number: string, itinerary: Itinerary)
      requires Valid()
      requires forall i :: 0 <= i < |draws| ==> |draws[i]| == IdLength
      requires exists i :: 0 <= i < |draws| && GenerateId(draws[i]) !in itineraries
      modifies this
      ensures Valid()
      ensures ValidId(number) && number !in old(itineraries)
      ensures exists k :: 0 <= k < |draws| && number == GenerateId(draws[k])
                          && forall j :: 0 <= j < k ==> GenerateId(draws[j]) in old(itineraries)
      ensures itineraries == Booked(old(itineraries), number, flight)
      ensures itinerary == itineraries[number] == Itinerary(number, flight)
    {
      var k := 0;
      number := GenerateId(draws[0]);
      while number in itineraries
        invariant 0 <= k < |draws| && number == GenerateId(draws[k])
        invariant forall j :: 0 <= j < k ==> GenerateId(draws[j]) in itineraries
        decreases |draws| - k
      {
        k := k + 1;
        number := GenerateId(draws[k]);
      }
      itineraries := itineraries[number := Itinerary(number, flight)];
      itinerary := itineraries[number];
    }

    /** `cancel_itinerary`: delete a present itinerary, raise for an absent one. */
    method CancelItinerary(number: string) returns (r: Result<(), TravelError>)
      requires Valid()
      modifies this
      ensures Valid()
      ensures r.Success? <==> number in old(itineraries)
      ensures r.Failure? ==> r.error == ItineraryNotFound && itineraries == old(itineraries)
      ensures r.Success? ==> itineraries == Cancelled(old(itineraries), number)
    {
      if number in itineraries {
        itineraries := itineraries - {number};
        return Success(());
      }
      return Failure(ItineraryNotFound);
    }
  }

  // ----- The chat callable's message history -----

  /** One history entry: the user's request and the agent's `process_result`. */
  datatype Turn = Turn(userRequest: string, processResult: string)

  /** The history after appending `turn` to thread `tid`, creating the thread's list if new. */
  function Recorded(threads: map<string, seq<Turn>>, tid: string, turn: Turn): (r: map<string, seq<Turn>>)
    ensures r.Keys == threads.Keys + {tid}
    ensures tid !in threads ==> r[tid] == [turn]
    ensures tid in threads ==> r[tid] == threads[tid] + [turn]
    ensures forall t :: t in threads && t != tid ==> r[t] == threads[t]
  {
    var history := if tid in threads then threads[tid] else [];
    threads[tid := history + [turn]]
  }

  /** Recording never loses a turn: a thread's old history is a prefix of its new one. */
  lemma RecordedExtends(threads: map<string, seq<Turn>>, tid: string, turn: Turn, t: string)
    requires t in threads
    ensures threads[t] <= Recorded(threads, tid, turn)[t]
    ensures |Recorded(threads, tid, turn)[t]| == |threads[t]| + (if t == tid then 1 else 0)
  {
  }

  /** `message_history` of the travel agent's chat callable. */
  class MessageHistory {
    var threads: map<string, seq<Turn>>

    constructor ()
      ensures threads == map[]
    {
      threads := map[];
    }

    /**
     * `agent_callable`: resolve the thread id, run the agent on the last
     * message (with the thread's history when the thread is known), append
     * the turn and return the agent's reply. The agent is an opaque function
     * of the request and the known history; `freshId` is the uuid4 drawn when
     * the input carries no thread id.
     */
    method AgentCallable(input: Chat.ChatInput, freshId: string, agent: (string, Option<seq<Turn>>) -> string)
      returns (r: Result<string, Chat.ChatError>)
      modifies this
      ensures input.messages == [] ==> r == Failure(Chat.IndexError) && threads == old(threads)
      ensures input.messages != [] ==>
        var tid := Chat.ResolveThreadId(input.threadId, freshId);
        var request := input.messages[|input.messages| - 1];
        var known := if tid in old(threads) then Some(old(threads)[tid]) else None;
        var reply := agent(request, known);
        r == Success(reply) && threads == Recorded(old(threads), tid, Turn(request, reply))
    {
      var tid := Chat.ResolveThreadId(input.threadId, freshId);
      var last := Chat.LastMessage(input.messages);
      if last.Failure? {
        return Failure(Chat.IndexError);
      }
      var request := last.value;
      var reply: string;
      if tid in threads {
        reply := agent(request, Some(threads[tid]));
      } else {
        threads := threads[tid := []];
        reply := agent(request, None);
      }
      threads := threads[tid := threads[tid] + [Turn(request, reply)]];
      r := Success(reply);
    }
  }
}
