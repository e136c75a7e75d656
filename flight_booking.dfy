/** The flight inventory of the flight booking plugin: an in-memory list of
    flight records that can be searched by destination and date, and whose
    records can be booked one at a time by Id. */
module FlightBooking {

  datatype Option<+T> = None | Some(value: T)

  /** One record of the inventory, as stored in the snapshot file. */
  datatype Flight = Flight(id: int, destination: string, departureDate: string, isBooked: bool)

  /** What a search reports: the fixed "no flights found" message, or the
      list of matching records (serialised in the source). */
  datatype SearchResult = NoFlights | Found(flights: seq<Flight>)

  /** Which of the three messages a booking attempt returns. */
  datatype BookingOutcome = AlreadyBooked | Booked(destination: string) | NotFound

  /** A booking attempt as a value: its outcome and the inventory afterwards. */
  datatype Booking = Booking(outcome: BookingOutcome, after: seq<Flight>)

  // ---------------------------------------------------------------------------
  // Case folding (ASCII approximation of Python's str.lower)
  // ---------------------------------------------------------------------------

  function LowerChar(c: char): (d: char)
    ensures 'A' <= c <= 'Z' ==> 'a' <= d <= 'z'
    ensures !('A' <= c <= 'Z') ==> d == c
  {
    if 'A' <= c <= 'Z' then (c as int - 'A' as int + 'a' as int) as char else c
  }

  function Lower(s: string): (r: string)
    ensures |r| == |s|
    ensures forall i :: 0 <= i < |s| ==> r[i] == LowerChar(s[i])
  {
    seq(|s|, i requires 0 <= i < |s| => LowerChar(s[i]))
  }

  /** Lowering twice is lowering once. */
  lemma LowerIdempotent(s: string)
    ensures Lower(Lower(s)) == Lower(s)
  {
    assert forall i :: 0 <= i < |s| ==> LowerChar(LowerChar(s[i])) == LowerChar(s[i]);
  }

  // ---------------------------------------------------------------------------
  // search_flights
  // ---------------------------------------------------------------------------

  /** The comprehension's condition: destination equal ignoring case, date equal exactly.
      The booking flag plays no part. */
  predicate Matches(f: Flight, destination: string, departureDate: string) {
    Lower(f.destination) == Lower(destination) && f.departureDate == departureDate
  }

  /** The records of `flights` that match, in inventory order. */
  function Matching(flights: seq<Flight>, destination: string, departureDate: string): (r: seq<Flight>)
    ensures |r| <= |flights|
    ensures forall f :: f in r <==> f in flights && Matches(f, destination, departureDate)
  {
    if flights == [] then []
    else
      (if Matches(flights[0], destination, departureDate) then [flights[0]] else [])
      + Matching(flights[1..], destination, departureDate)
  }

  /** Order is kept: the matches of a concatenation are the matches of each part, in turn. */
  lemma {:induction false} MatchingConcat(a: seq<Flight>, b: seq<Flight>, destination: string, departureDate: string)
    ensures Matching(a + b, destination, departureDate)
         == Matching(a, destination, departureDate) + Matching(b, destination, departureDate)
  {
    if a == [] {
      assert a + b == b;
    } else {
      assert (a + b)[1..] == a[1..] + b;
      MatchingConcat(a[1..], b, destination, departureDate);
    }
  }

  /** Multiplicities are kept: a matching record occurs in the result exactly as
      often as in the inventory, a record that does not match never occurs. */
  lemma {:induction false} MatchingCount(flights: seq<Flight>, destination: string, departureDate: string, f: Flight)
    ensures multiset(Matching(flights, destination, departureDate))[f]
         == if Matches(f, destination, departureDate) then multiset(flights)[f] else 0
  {
    if flights != [] {
      MatchingCount(flights[1..], destination, departureDate, f);
      assert flights == [flights[0]] + flights[1..];
      assert multiset(flights) == multiset{flights[0]} + multiset(flights[1..]);
    }
  }

  /** Searching is case-insensitive in the destination: two queries that lower
      to the same string find the same records. */
  lemma {:induction false} MatchingCaseInsensitive(flights: seq<Flight>, d1: string, d2: string, departureDate: string)
    requires Lower(d1) == Lower(d2)
    ensures Matching(flights, d1, departureDate) == Matching(flights, d2, departureDate)
  {
    if flights != [] {
      MatchingCaseInsensitive(flights[1..], d1, d2, departureDate);
    }
  }

  /** A query lowered beforehand finds what the query itself finds. */
  lemma LoweredQuery(flights: seq<Flight>, destination: string, departureDate: string)
    ensures Matching(flights, Lower(destination), departureDate) == Matching(flights, destination, departureDate)
  {
    LowerIdempotent(destination);
    MatchingCaseInsensitive(flights, Lower(destination), destination, departureDate);
  }

  /** Two records that agree on everything but the booking flag. */
  predicate SameListing(a: Flight, b: Flight) {
    a.id == b.id && a.destination == b.destination && a.departureDate == b.departureDate
  }

  /** Booked records are not filtered out: changing only booking flags changes
      only booking flags in what a search finds. */
  lemma {:induction false} MatchingIgnoresBookingFlags(s: seq<Flight>, t: seq<Flight>, destination: string, departureDate: string)
    requires |s| == |t|
    requires forall i :: 0 <= i < |s| ==> SameListing(s[i], t[i])
    ensures |Matching(s, destination, departureDate)| == |Matching(t, destination, departureDate)|
    ensures forall i :: 0 <= i < |Matching(s, destination, departureDate)| ==>
              SameListing(Matching(s, destination, departureDate)[i], Matching(t, destination, departureDate)[i])
  {
    if s != [] {
      var ms, mt := Matching(s, destination, departureDate), Matching(t, destination, departureDate);
      var rs, rt := Matching(s[1..], destination, departureDate), Matching(t[1..], destination, departureDate);
      MatchingIgnoresBookingFlags(s[1..], t[1..], destination, departureDate);
      assert Matches(s[0], destination, departureDate) == Matches(t[0], destination, departureDate);
      if Matches(s[0], destination, departureDate) {
        assert ms == [s[0]] + rs && mt == [t[0]] + rt;
      } else {
        assert ms == rs && mt == rt;
      }
    }
  }

  // ---------------------------------------------------------------------------
  // book_flight, as a function on values
  // ---------------------------------------------------------------------------

  /** Position of the first record with the given Id, if any. */
  function FirstIndex(flights: seq<Flight>, id: int): (r: Option<nat>)
    ensures r.None? <==> forall j :: 0 <= j < |flights| ==> flights[j].id != id
    ensures r.Some? ==> r.value < |flights| && flights[r.value].id == id
    ensures r.Some? ==> forall j :: 0 <= j < r.value ==> flights[j].id != id
  {
    if flights == [] then None
    else if flights[0].id == id then Some(0)
    else match FirstIndex(flights[1..], id)
      case None => None
      case Some(k) => Some(k + 1)
  }

  /** The effect of `book_flight(id)` on an inventory. */
  function Book(flights: seq<Flight>, id: int): (b: Booking)
    // the three outcomes, each characterised by the first record with that Id
    ensures b.outcome == NotFound <==> forall j :: 0 <= j < |flights| ==> flights[j].id != id
    ensures b.outcome == AlreadyBooked <==>
              exists k :: 0 <= k < |flights| && flights[k].id == id && flights[k].isBooked
                          && (forall j :: 0 <= j < k ==> flights[j].id != id)
    ensures b.outcome.Booked? ==>
              exists k :: 0 <= k < |flights| && flights[k].id == id && !flights[k].isBooked
                          && (forall j :: 0 <= j < k ==> flights[j].id != id)
                          && b.outcome.destination == flights[k].destination
                          && b.after == flights[k := flights[k].(isBooked := true)]
    // a failed attempt changes nothing
    ensures !b.outcome.Booked? ==> b.after == flights
    // nothing but booking flags ever changes, and no flag goes from true to false
    ensures |b.after| == |flights|
    ensures forall i :: 0 <= i < |flights| ==> SameListing(b.after[i], flights[i])
    ensures forall i :: 0 <= i < |flights| && flights[i].isBooked ==> b.after[i].isBooked
    // at most one record changes
    ensures forall i, j :: 0 <= i < |flights| && 0 <= j < |flights| && i != j && b.after[i] != flights[i]
                          ==> b.after[j] == flights[j]
  {
    match FirstIndex(flights, id)
    case None => Booking(NotFound, flights)
    case Some(k) =>
      if flights[k].isBooked then Booking(AlreadyBooked, flights)
      else Booking(Booked(flights[k].destination), flights[k := flights[k].(isBooked := true)])
  }

  /** A second booking of the same Id is refused and changes nothing more. */
  lemma BookTwice(flights: seq<Flight>, id: int)
    requires Book(flights, id).outcome != NotFound
    ensures Book(Book(flights, id).after, id) == Booking(AlreadyBooked, Book(flights, id).after)
  {
    var after := Book(flights, id).after;
    var k := FirstIndex(flights, id).value;
    assert FirstIndex(after, id) == Some(k) by {
      assert after[k].id == id;
      assert forall j :: 0 <= j < k ==> after[j].id == flights[j].id;
    }
  }

  /** A booking never hides a record from a search; it only changes its flag. */
  lemma BookKeepsSearchResults(flights: seq<Flight>, id: int, destination: string, departureDate: string)
    ensures |Matching(Book(flights, id).after, destination, departureDate)| == |Matching(flights, destination, departureDate)|
    ensures forall i :: 0 <= i < |Matching(flights, destination, departureDate)| ==>
              SameListing(Matching(Book(flights, id).after, destination, departureDate)[i],
                          Matching(flights, destination, departureDate)[i])
  {
    MatchingIgnoresBookingFlags(Book(flights, id).after, flights, destination, departureDate);
  }

  /** With an empty inventory (what a failed load leaves) every booking is "not found". */
  lemma EmptyInventoryBooksNothing(id: int)
    ensures Book([], id) == Booking(NotFound, [])
  {
  }

  // ---------------------------------------------------------------------------
  // The plugin object
  // ---------------------------------------------------------------------------

  class FlightBookingPlugin {
    /** The in-memory inventory. */
    var flights: seq<Flight>
    /** The last snapshot read from or written to the data file;
        None when loading failed and nothing has been saved since. */
    ghost var saved: Option<seq<Flight>>

    /** Construction loads the snapshot; `snapshot` is the parsed file, or None
        when opening or parsing it failed. */
    constructor (snapshot: Option<seq<Flight>>)
      ensures flights == (if snapshot.Some? then snapshot.value else [])
      ensures saved == snapshot
    {
      flights := [];
      saved := None;
      new;
      LoadFlights(snapshot);
    }

    /** `_load_flights`: a failed load leaves an empty inventory. */
    method LoadFlights(snapshot: Option<seq<Flight>>)
      modifies this
      ensures flights == (if snapshot.Some? then snapshot.value else [])
      ensures saved == snapshot
    {
      match snapshot {
        case Some(loaded) =>
          flights := loaded;
        case None =>
          flights := [];
      }
      saved := snapshot;
    }

    /** `_save_flights`: the whole inventory becomes the snapshot. */
    method SaveFlights()
      modifies this`saved
      ensures saved == Some(flights)
    {
      saved := Some(flights);
    }

    /** `search_flights`: read-only; booked records are kept in the result. */
    function SearchFlights(destination: string, departureDate: string): (r: SearchResult)
      reads this
      ensures r == NoFlights <==> forall i :: 0 <= i < |flights| ==> !Matches(flights[i], destination, departureDate)
      ensures r.Found? ==> r.flights != [] && r.flights == Matching(flights, destination, departureDate)
      ensures r.Found? ==> forall i :: 0 <= i < |flights| && Matches(flights[i], destination, departureDate)
                             ==> flights[i] in r.flights
    {
      var matching := Matching(flights, destination, departureDate);
      if matching == [] then NoFlights
      else
        assert matching[0] in flights && Matches(matching[0], destination, departureDate);
        Found(matching)
    }

    /** `book_flight`: finds the first record with the Id; books it and saves
        the snapshot when it is free, reports it when it is taken, and reports
        "not found" when no record has the Id. */
    method BookFlight(flightId: int) returns (outcome: BookingOutcome)
      modifies this
      ensures outcome == Book(old(flights), flightId).outcome
      ensures flights == Book(old(flights), flightId).after
      ensures saved == if outcome.Booked? then Some(flights) else old(saved)
    {
      var i := 0;
      while i < |flights|
        invariant 0 <= i <= |flights|
        invariant flights == old(flights) && saved == old(saved)
        invariant forall j :: 0 <= j < i ==> flights[j].id != flightId
      {
        if flights[i].id == flightId {
          assert FirstIndex(flights, flightId) == Some(i);
          if flights[i].isBooked {
            return AlreadyBooked;
          }
          flights := flights[i := flights[i].(isBooked := true)];
          SaveFlights();
          return Booked(flights[i].destination);
        }
        i := i + 1;
      }
      return NotFound;
    }
  }

  /** Booking one Id twice on a plugin: the first call has `Book`'s outcome;
      once it has found the Id, the second call is refused and changes
      nothing, and when it has not, neither call changes anything. The
      snapshot is written only by a successful first call, and whether a
      search finds anything is the same before and after. */
  method BookSameIdTwice(p: FlightBookingPlugin, flightId: int, destination: string, departureDate: string)
      returns (first: BookingOutcome, second: BookingOutcome)
    modifies p
    ensures first == Book(old(p.flights), flightId).outcome
    ensures first != NotFound ==> second == AlreadyBooked && p.flights == Book(old(p.flights), flightId).after
    ensures first == NotFound ==> second == NotFound && p.flights == old(p.flights)
    ensures p.saved == if first.Booked? then Some(p.flights) else old(p.saved)
    ensures old(p.SearchFlights(destination, departureDate)).NoFlights? <==> p.SearchFlights(destination, departureDate).NoFlights?
  {
    ghost var before := p.flights;
    first := p.BookFlight(flightId);
    if first != NotFound {
      BookTwice(before, flightId);
    }
    second := p.BookFlight(flightId);
    BookKeepsSearchResults(before, flightId, destination, departureDate);
    if first != NotFound {
      BookKeepsSearchResults(Book(before, flightId).after, flightId, destination, departureDate);
    }
  }
}
