# Flight booking inventory

A Dafny model of the flight inventory behind the `FlightBooking` plugin
(`FlightBookingPlugin`, `plugins/NativePlugins/flight_booking_plugin.py`).
The plugin keeps an in-memory list of flight records (`Id`, `Destination`,
`DepartureDate`, `IsBooked`) loaded from a snapshot file. `search_flights`
filters the list by destination (ignoring case) and exact date.
`book_flight` finds the first record with an Id and either books it and
saves the snapshot, or reports "already booked" or "not found".

Everything is in `flight_booking.dfy`, module `FlightBooking`:

- `Flight`, `SearchResult` (`NoFlights | Found(flights)`), `BookingOutcome`
  (`AlreadyBooked | Booked(destination) | NotFound`) are values.
- `FlightBookingPlugin` is a class. Its field `flights: seq<Flight>` is the inventory
  and its ghost field `saved` is the last snapshot read or written
  (`None` when loading failed and nothing has been saved since).
  `LoadFlights` and `BookFlight` are methods that `modifies this`;
  `SaveFlights` modifies only `saved`. `SearchFlights` is a function that `reads this`.
- `BookFlight` keeps the source's loop with early returns. It is proved
  against `Book`, the same operation on values. The lemmas about booking are
  proved about `Book`.
- Search follows the code and keeps booked records in its result, even
  though the tool description speaks of "available flights".
- `book_flight` has no rollback when `_save_flights` fails and no lock. The
  model claims neither, and its save cannot fail (see "Left out").

## Model

| member | source | states |
|---|---|---|
| FlightBooking.Lower | plugins/NativePlugins/flight_booking_plugin.py:35 | lower-casing keeps the length and lowers each character (ASCII) |
| FlightBooking.LowerIdempotent | plugins/NativePlugins/flight_booking_plugin.py:35 | lowering an already lowered string changes nothing |
| FlightBooking.Matching | plugins/NativePlugins/flight_booking_plugin.py:33-36 | the filter's result holds exactly the inventory records whose destination equals the query ignoring case and whose date equals the query date, and is never longer than the inventory |
| FlightBooking.MatchingConcat | plugins/NativePlugins/flight_booking_plugin.py:33-36 | the filter keeps inventory order: the matches of `a + b` are the matches of `a` followed by those of `b` |
| FlightBooking.MatchingCount | plugins/NativePlugins/flight_booking_plugin.py:33-36 | a matching record occurs in the result exactly as often as in the inventory; a non-matching one never occurs |
| FlightBooking.MatchingCaseInsensitive | plugins/NativePlugins/flight_booking_plugin.py:35 | two destination queries equal ignoring case give the same result |
| FlightBooking.LoweredQuery | plugins/NativePlugins/flight_booking_plugin.py:35 | a query lowered beforehand finds exactly what the query itself finds |
| FlightBooking.MatchingIgnoresBookingFlags | plugins/NativePlugins/flight_booking_plugin.py:33-36 | booked records are not filtered out: inventories that differ only in booking flags give results of the same length that differ only in booking flags |
| FlightBooking.FirstIndex | plugins/NativePlugins/flight_booking_plugin.py:50-51 | the loop's stopping point: None exactly when no record has the Id, otherwise a position holding the Id with no earlier record holding it |
| FlightBooking.Book | plugins/NativePlugins/flight_booking_plugin.py:50-58 | "not found" exactly when no record has the Id; "already booked" exactly when the first record with the Id is booked; on success the first record with the Id was unbooked, it alone is set booked, and its destination is reported; a failure changes nothing; no field but the booking flag ever changes and no flag goes back to false; at most one record changes |
| FlightBooking.BookTwice | plugins/NativePlugins/flight_booking_plugin.py:50-55 | after a booking that found the Id, booking it again gives "already booked" and leaves the inventory as it is |
| FlightBooking.BookKeepsSearchResults | plugins/NativePlugins/flight_booking_plugin.py:33-36 | booking never hides a record from a search: the results before and after have the same length and differ only in booking flags |
| FlightBooking.EmptyInventoryBooksNothing | plugins/NativePlugins/flight_booking_plugin.py:58 | on an empty inventory every booking is "not found" and changes nothing |
| FlightBooking.FlightBookingPlugin.constructor | plugins/NativePlugins/flight_booking_plugin.py:6-10 | construction loads the snapshot: the inventory is the parsed snapshot, or empty when loading failed |
| FlightBooking.FlightBookingPlugin.LoadFlights | plugins/NativePlugins/flight_booking_plugin.py:12-19 | a successful load makes the inventory the snapshot's records; a failed load leaves an empty inventory |
| FlightBooking.FlightBookingPlugin.SaveFlights | plugins/NativePlugins/flight_booking_plugin.py:21-23 | the snapshot becomes the whole current inventory |
| FlightBooking.FlightBookingPlugin.SearchFlights | plugins/NativePlugins/flight_booking_plugin.py:29-41 | reads the inventory only; "no flights" exactly when no record matches; otherwise a non-empty list that is the filter's result and contains every matching record, booked or not |
| FlightBooking.FlightBookingPlugin.BookFlight | plugins/NativePlugins/flight_booking_plugin.py:47-58 | outcome and new inventory are those of `Book` on the old inventory; the snapshot equals the new inventory after a success and is untouched otherwise |
| FlightBooking.BookSameIdTwice | plugins/NativePlugins/flight_booking_plugin.py:47-58 | two bookings of one Id on a plugin: the first has `Book`'s outcome; if it found the Id the second is "already booked" and the inventory is as after one booking, otherwise both are "not found" and nothing changes; the snapshot equals the inventory after a successful first booking and is untouched otherwise; whether a search finds anything is the same before and after |

## Left out

- JSON parsing and serialisation and the file I/O of `_load_flights` and
  `_save_flights`. A load is a parameter: some list of records, or a failure.
  A save copies the inventory into the ghost field `saved`.
- A failing `_save_flights`: in the code the exception propagates after the
  flag is already set. There is no rollback. The model's save cannot fail,
  so this path is not represented.
- Locking around `book_flight`: the code has none, so the model claims no
  atomicity under concurrent callers.
- Lower-casing: `str.lower()` is approximated by ASCII `A`-`Z` to `a`-`z`.
  Other Unicode case mappings are not modelled.
- The `int(flight_id)` coercion and its failure on non-numeric input. The Id
  is taken as an integer.
- The exact wording of the returned messages and their JSON serialisation.
  Outcomes are datatype values. The `Booked` outcome carries the destination
  the message names.
- Malformed records. Every record is taken to have all four keys, an integer
  `Id`, string `Destination` and `DepartureDate`, and a boolean `IsBooked`.
  The code would raise `KeyError` on a missing key, test `IsBooked` for
  truthiness, and compare `Id` with Python's `==`; none of that is modelled.
- Debug console output.
- Records are values. In the code each record is a dictionary mutated in
  place, and the records of a loaded list are distinct, so there is no
  aliasing to capture.
- The agent loop, prompt rendering and chat-completion setup (`main.py`,
  `01_main.py`, `02_kernel.py`, `04_prompts.py`, `test_plugin.py`). They
  hand everything to an external SDK and a remote model, so there is no
  local logic to model.
