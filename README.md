# Train reservation lifecycle — a Dafny model

This project models the business rules of a train-reservation web service
(EAD-Web-Services). There are two services, each over a document store:

- **`ReservationService`** books, changes and cancels reservations. A booking
  needs a resolvable train schedule and a travel date inside a 30-day creation
  window. On success it appends an ID-only back-reference to the schedule.
  Changing or cancelling a reservation needs a lead time of at least 5 whole
  days, measured on the date of the reservation *as stored*. The service also
  answers queries that join each reservation with a five-field summary of its
  schedule.
- **`TrainScheduleService`** inserts, lists, looks up, replaces and deletes
  schedules. Its deletion guard refuses to delete a schedule whose
  back-reference list is non-null and non-empty.

Each store is a class field of type `map<string, …>`, keyed by document
identifier. Its invariant (`Valid`) is that every document is stored under its
own identifier. `TrainSchedule` follows `Data/TrainSchedules/TrainSchedule.cs`
property for property. `Data/Reservations/Reservation.cs` is not part of this
model: the `Reservation` record's four properties (identifier, traveller,
schedule, date) are the ones the services use. A null property is `None`.

Time is whole seconds since 1970-01-01T00:00:00Z. The current moment `now` is
a parameter of every operation that reads the clock. A stored date string is
represented by its parse result: `Some(instant)`, or `None` for a null or
unparsable string. `.NET`'s `TimeSpan` truncates day counts toward zero, while
Dafny's `/` rounds down, so `Dates.WholeDays` spells truncation out for
negative spans.

Error paths are values, not preconditions. Each exception the source throws is
a `Fault` (module `Faults`), returned in `Outcome.Failed` or `Result.Err`; on every failure path
the stores are unchanged. The document store's own refusals are modelled the
same way: inserting an identifier that is already present, and replacing a
document with one that carries another identifier. A reservation whose
schedule has vanished makes the source dereference null while enriching it;
here the query fails with `MissingTrainSchedule`.

Some consequences of the code that the contracts make visible:

- A past date passes the 30-day window check, because there is no lower bound.
- An unparsable date fails the 30-day window check. In the 5-day gate it
  yields `int.MaxValue`, so changing or cancelling that reservation is always
  allowed.
- Cancelling a reservation does not prune the schedule's back-reference list.
  Once anything has been booked on a schedule, the deletion guard keeps
  refusing to delete it, unless the schedule document itself is replaced with
  one whose list is null or empty. `TrainSchedules.GuardStaysArmed` states
  this: every schedule the guard protects stays stored and protected. Creating,
  updating and cancelling a reservation, and deleting a schedule, keep that
  property, and each says so in its contract. `UpdateTrainSchedule` is the one
  operation that can break it. `LifecycleExample.BookThenCancel` walks through
  a booking followed by a cancellation 10 days ahead (allowed), and
  `LifecycleExample.LockedNearTravelDate` shows one 3 days ahead (refused).
  `LifecycleExample.ReplacingScheduleDisarmsGuard` shows a replacement
  disarming the guard.

An unparsable stored date does not drop out of
`GetReservationWithDetailsAheadOfToday`. That query's filter calls
`DateTime.Parse` on the date of each of the traveller's reservations, so the
whole query fails with `UnparsableDate`. A null date counts as unparsable:
both are `None`. The filter runs inside the document store. Here it is read as
a predicate evaluated record by record, with `&&` short-circuiting, so only
the traveller's own reservations are parsed.

## Model

| member | source | states |
|---|---|---|
| `Dates.WholeDays` | Data/Reservations/ReservationService.cs:285 | day count of a span truncated toward zero: non-negative spans round down and negative spans round up, which differs from Euclidean division |
| `Dates.Midnight` | Data/Reservations/ReservationService.cs:301 | `UtcNow.Date`: the day boundary at or before `now`, less than a day earlier |
| `Dates.CalculateDaysDifference` | Data/Reservations/ReservationService.cs:275-293 | `int.MaxValue` when the date does not parse; otherwise the whole days from `now` to the date, truncated toward zero, bounded on both sides by the span |
| `Dates.IsReservationDateValid` | Data/Reservations/ReservationService.cs:296-306 | false on parse failure; otherwise true iff the date is before today's UTC midnight plus 31 days; every date at or before `now` is accepted |
| `Dates.LeadTimeGate` | Data/Reservations/ReservationService.cs:147-150 | the `daysDifference >= 5` gate passes iff the date does not parse or is at least 5 full days after `now` |
| `Dates.DaysDifferenceFitsInt` | Data/Reservations/ReservationService.cs:285 | for dates and clocks inside DateTimeOffset's range, the `(int)` cast of the day count cannot overflow |
| `Records.SummaryCopiesFiveFields` | Data/Reservations/ReservationService.cs:89-96 | two schedules give the same summary iff they agree on exactly the five copied properties |
| `TrainSchedules.HasReservations` | Data/TrainSchedules/TrainScheduleService.cs:61-64 | true iff the back-reference list is non-null and holds at least one element |
| `TrainSchedules.TrainScheduleService.CreateTrainSchedule` | Data/TrainSchedules/TrainScheduleService.cs:21-22 | inserts the schedule under its identifier, after which `GetTrainSchedule` returns it; a taken identifier fails with `DuplicateKey` and changes nothing |
| `TrainSchedules.TrainScheduleService.GetTrainSchedules` | Data/TrainSchedules/TrainScheduleService.cs:25-26 | every stored schedule is listed, and every listed one is the record stored under its own identifier |
| `TrainSchedules.TrainScheduleService.GetTrainSchedule` | Data/TrainSchedules/TrainScheduleService.cs:29-30 | a stored schedule whose identifier equals the requested one, or null when no stored schedule has it |
| `TrainSchedules.TrainScheduleService.UpdateTrainSchedule` | Data/TrainSchedules/TrainScheduleService.cs:33-34 | an absent identifier is a no-op; otherwise only that record is replaced; a replacement carrying another identifier fails with `ImmutableId` and changes nothing |
| `TrainSchedules.TrainScheduleService.DeleteTrainSchedule` | Data/TrainSchedules/TrainScheduleService.cs:38-58 | unknown identifier: `TrainScheduleNotFound`, store unchanged; non-empty back-references: `TrainScheduleHasReservations`, store unchanged; otherwise exactly that schedule is removed; every schedule the deletion guard protected is still stored and still protected |
| `Reservations.BackReferenceLinks` | Data/Reservations/ReservationService.cs:57-63 | booking keeps the old back-references (none if the list was null) in order, appends the ID-only entry last, changes nothing else on the schedule, and makes the deletion guard fire |
| `Reservations.ReservationService.FindReservation` | Data/Reservations/ReservationService.cs:138-140 | a stored reservation whose identifier equals the requested one, or null when none has it |
| `Reservations.ListsEachOnceLength` | Data/Reservations/ReservationService.cs:76-98 | a result that lists every selected identifier exactly once, and no other, has exactly as many entries as there are selected reservations |
| `Reservations.ReservationService.EnrichAll` | Data/Reservations/ReservationService.cs:76-98 | succeeds iff every selected reservation's schedule resolves; the result then lists each selected reservation exactly once, as stored, each with its schedule's summary; otherwise it fails with `MissingTrainSchedule` |
| `Reservations.ReservationService.GetReservationsWithDetails` | Data/Reservations/ReservationService.cs:71-101 | every stored reservation exactly once with its schedule's summary (as many entries as reservations), or `MissingTrainSchedule` iff some schedule does not resolve |
| `Reservations.ReservationService.GetReservationWithDetails` | Data/Reservations/ReservationService.cs:104-131 | null iff no reservation has the identifier; otherwise that reservation with its schedule's summary, or `MissingTrainSchedule` iff its schedule does not resolve |
| `Reservations.ReservationService.TravellerSelection` | Data/Reservations/ReservationService.cs:243-245 | a stored reservation is selected for a traveller iff its traveller is that one; only stored identifiers are selected |
| `Reservations.ReservationService.GetReservationOfATraveller` | Data/Reservations/ReservationService.cs:239-268 | exactly that traveller's reservations, each once, each with its schedule's summary, and no one else's |
| `Reservations.ReservationService.UpcomingSelection` | Data/Reservations/ReservationService.cs:208-210 | a stored reservation is selected as upcoming iff it is the traveller's and its date parses and lies strictly after `now`; upcoming ones are a subset of the traveller's |
| `Reservations.ReservationService.GetReservationWithDetailsAheadOfToday` | Data/Reservations/ReservationService.cs:205-234 | fails with `UnparsableDate` iff one of the traveller's dates does not parse; otherwise exactly the traveller's reservations dated strictly after `now`, each once and enriched, or `MissingTrainSchedule` |
| `Reservations.ReservationService.CreateReservation` | Data/Reservations/ReservationService.cs:36-67 | unknown schedule: `InvalidTrainScheduleId` whatever the date; then outside the 30-day window: `InvalidReservationDate`; then a taken identifier: `DuplicateKey`; each leaves both stores unchanged. Success happens exactly when none of these applies: the reservation is stored under its identifier, and only the target schedule changes, gaining the ID-only back-reference; every schedule the deletion guard protected is still stored and still protected |
| `Reservations.ReservationService.UpdateReservation` | Data/Reservations/ReservationService.cs:135-169 | unknown identifier: `ReservationNotFound`; stored record's lead time under 5 days: `DateNotValidForUpdate`; each changes nothing; otherwise only that record becomes the submitted one with its identifier forced to the requested one; schedules untouched; every schedule the deletion guard protected is still stored and still protected |
| `Reservations.ReservationService.DeleteReservation` | Data/Reservations/ReservationService.cs:173-200 | the same not-found and lead-time failures (`DateNotValidForDelete`), each changing nothing; otherwise exactly that record is removed and schedule back-references are untouched; every schedule the deletion guard protected is still stored and still protected |

## Left out

- Input/output is not modelled: MongoDB client setup and driver calls, `async`/`await`, and `Console.WriteLine` logging. Each store is a map and each operation runs sequentially.
- `CreateReservation` writes to two stores in two steps, without atomicity. With concurrent requests or a crash between the steps, a reservation can end up without its back-reference. The model runs requests sequentially, so it does not capture this.
- The real clock, time zones and culture-dependent parsing are not modelled. The source uses `DateTime.Now`, `DateTime.UtcNow` and `DateTimeOffset.UtcNow`, all of which become the single parameter `now`. It parses dates with `DateTimeOffset.TryParse`, `DateTime.TryParse` and `DateTime.Parse`, all of which become one parse result per stored date. So the model cannot express two parsers disagreeing about the same string.
- Sub-second precision is not modelled, because instants are whole seconds. Floating-point rounding of `TotalDays` is not modelled either: at one-second resolution, truncating the exact quotient gives the same day count.
- Null identifiers are not modelled: every document here carries one. In the source, a schedule posted without `trainScheduleID` is stored under a null `_id`, because no identifier generator is configured for it (Data/TrainSchedules/TrainSchedule.cs:8-10). A lookup with a null identifier then finds that schedule. Here a lookup with `None` finds nothing, so `CreateReservation` with a null schedule identifier always fails with `InvalidTrainScheduleId`. Whether a reservation's identifier is generated depends on `Data/Reservations/Reservation.cs`, which is not part of this model.
- `UpdateReservation` checks whether the store modified no document, and that check is not modelled. After the existence check the replacement always matches a document. MongoDB also reports zero modified documents when the replacement equals the stored document; that driver behaviour is not modelled either.
- `Reservations.ReservationService.EnrichAll`: does not state the order of the result, because the order the store lists documents in is not modelled; the result is stated as a permutation of the selected reservations.
- `Reservations.ReservationService.GetReservationsWithDetails`: does not state the order of the result, for the same reason as `EnrichAll`.
- `Reservations.ReservationService.GetReservationOfATraveller`: does not state the order of the result, for the same reason as `EnrichAll`.
- `Reservations.ReservationService.GetReservationWithDetailsAheadOfToday`: does not state the order of the result, for the same reason as `EnrichAll`. It also does not model whether the database driver can translate `DateTime.Parse` inside a query filter: the filter is read as a predicate evaluated record by record, with `&&` short-circuiting.
- `TrainSchedules.TrainScheduleService.GetTrainSchedules`: returns the set of stored schedules, not a list in store order.
- Traveller accounts, back-office accounts, password hashing and HTTP routing are not modelled. They are plain CRUD, foreign library calls or transport. The routes' own existence checks mostly repeat the checks inside the services. One does not: the reservation PUT and DELETE routes pre-check through `GetReservationWithDetails`, which also dereferences the schedule. So over HTTP, a reservation whose schedule no longer resolves can be neither updated nor deleted. `UpdateReservation` accepts any schedule reference, so such a reservation can arise.
