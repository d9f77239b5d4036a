# Lunchly reservations, modelled in Dafny

This project models the `Reservation` entity of the Lunchly restaurant
application (`models/reservation.js`). A reservation belongs to a customer,
has a party size, a start time and free-text notes, and is kept in the
`reservations` table. The model covers:

- the validating setters for `numGuests`, `startAt`, `notes` and the set-once
  `customerId`, and the constructor that sends every field through them;
- `save()`, which inserts a reservation without an id and adopts the generated
  id, and otherwise updates only `num_guests`, `start_at` and `notes` of its row;
- `getReservationsForCustomer`, which loads one Reservation per row of that
  customer;
- `Reservation.get`, both as written and as evidently intended (see Findings).

The database is replaced by an abstract store: a map from id to row plus the
next value of the id sequence (`Store.Db`). Each operation is a pure
transition. Entity state and store go in, and a result-or-error with the new
entity state and store comes out. `Lifecycle` strings setter calls and saves
into runs and proves what holds over a whole run. The id goes from unset to
assigned exactly once. A truthy customer id never changes. No row's
`customer_id` is ever rewritten. No row other than the reservation's own is
touched.

Files: `wrappers.dfy` (Option and Result), `reservation.dfy` (module
`Reservations`: fields, setters, constructor), `store.dfy` (module `Store`:
rows, save, queries), `lifecycle.dfy` (module `Lifecycle`: runs of operations).

JavaScript values are narrowed to what these fields carry:

- `numGuests` is an `int`.
- `customerId` is an optional `int`. `None` stands for `undefined`, and both `None` and `0` are falsy.
- `notes` is an optional string. `None` stands for `undefined` or `null`.
- The `startAt` argument is either a Date, whose time value is some milliseconds or NaN, or something that is not a Date.

A setter that throws assigns nothing, so the caller keeps the reservation it had.

On three points the code behaves differently from what the entity is usually described as doing, and the model follows the code:

- Listing by customer promises no order, because the query has no ORDER BY.
- The customer-id guard lets a stored `0` be overwritten, not only an absent value.
- An UPDATE for an id that has no row changes nothing and throws nothing.

## Model

| member | source | states |
|---|---|---|
| Reservations.CheckNumGuests | models/reservation.js:21-24 | a party size is accepted exactly when it is at least 1, and is kept unchanged; otherwise the too-few-guests error |
| Reservations.SetNumGuests | models/reservation.js:21-30 | assignment succeeds iff the value is >= 1; the getter then returns exactly that value, no other field changes and the reservation is valid; below 1 it fails with the too-few-guests error |
| Reservations.CheckStartAt | models/reservation.js:34-37 | accepted exactly when the argument is a Date whose time is not NaN; the stored instant hands back that same Date |
| Reservations.SetStartAt | models/reservation.js:34-41 | assignment succeeds iff the value is a Date with a non-NaN time; the getter then returns that Date and nothing else changes; otherwise the invalid-startAt error |
| Reservations.NormalizeNotes | models/reservation.js:49-52 | a truthy value is kept as given, a falsy one becomes the empty string; for any string argument the result is that string |
| Reservations.SetNotes | models/reservation.js:49-57 | never fails; a truthy value is stored as given, undefined, null or "" store ""; no other field changes |
| Reservations.SetNotesIdempotent | models/reservation.js:49-57 | assigning the same notes twice equals assigning once, and writing back what the getter returns changes nothing |
| Reservations.CheckCustomerId | models/reservation.js:61-65 | refused exactly when a truthy prior value differs (strictly) from the new one; otherwise the new value is stored |
| Reservations.SetCustomerId | models/reservation.js:61-71 | fails with the immutable-customer error iff the stored id is truthy and differs from the new one; otherwise the new value is stored and nothing else changes |
| Reservations.CustomerIdSetOnce | models/reservation.js:61-66 | once a truthy customer id is stored, an assignment succeeds only with that same value and then leaves the reservation as it was |
| Reservations.New | models/reservation.js:11-17 | construction succeeds iff numGuests >= 1 and startAt is a valid Date; the result carries the given id, customer id, party size and start time and normalized notes; a bad party size is reported before a bad start time |
| Reservations.NewIsSetterSequence | models/reservation.js:11-17 | construction is exactly the customerId, numGuests, startAt and notes setters applied in that order to an object with no prior customer id |
| Reservations.NewNeverRefusesCustomerId | models/reservation.js:11-13 | construction never fails on the customer id, whatever value it is given |
| Reservations.NewFieldsOfRoundTrip | models/reservation.js:11-17 | rebuilding a valid reservation from its own getters' values gives it back |
| Reservations.GetThenSetIsIdentity | models/reservation.js:21-71 | for a valid reservation, writing back what each getter returns succeeds and changes nothing |
| Store.UpdatedRow | models/reservation.js:128-130 | the update writes num_guests, start_at and notes from the reservation and keeps the row's customer_id |
| Store.Load | models/reservation.js:77-87 | a selected row becomes a Reservation iff its num_guests >= 1 and start_at is not NULL; the result carries the row's id, customer id, party size and start time, and "" for NULL notes |
| Store.Save | models/reservation.js:117-133 | without an id, exactly one row holding the current fields is added under the next sequence id, which the reservation adopts; with an id, only that row's num_guests, start_at and notes change and the key set and sequence stay put; no other row changes, and in a well-formed store the insert key is fresh and no existing customer_id is rewritten |
| Store.SaveTwiceInsertsOnce | models/reservation.js:117-133 | a second save takes the update branch: same id, same key set, no new id drawn; the row count grows by one only when the first save inserted |
| Store.SaveThenLoad | models/reservation.js:117-133 | after a save, the reservation's row loads back as the saved reservation, provided an updated row's customer_id matches it |
| Store.UpdateKeepsStoredCustomerId | models/reservation.js:61-66 | a reservation saved with no customer id may then be given one in memory, but the next save leaves the row's customer_id unset |
| Store.MatchingIds | models/reservation.js:82-83 | the selected ids are exactly the stored rows whose customer_id equals the argument; NULL matches nothing |
| Store.GetReservationsForCustomer | models/reservation.js:75-88 | succeeds iff every selected row loads; then one Reservation per selected row, each the load of its row, with distinct ids and the requested customer id, and empty when nothing matches; on failure the error is one a selected row's load throws; no order is claimed |
| Store.SavedReservationIsSelected | models/reservation.js:75-88 | after a save, the customer's query selects exactly what it selected before plus the saved reservation's id |
| Store.GetAsWritten | models/reservation.js:94-103 | the lookup as written always fails, and never with the not-found error |
| Store.Get | models/reservation.js:105-112 | the lookup reports not-found with status 404 iff no row has the id; otherwise it is the load of that row |
| Store.GetAsWrittenMissesNotFound | models/reservation.js:94-110 | on an empty table the intended lookup reports 404 while the written one fails with a query error |
| Store.SaveThenGet | models/reservation.js:117-133 | after a save, looking up the reservation's id finds the saved reservation, provided an updated row's customer_id matches it |
| Lifecycle.Step | models/reservation.js:21-133 | one setter call or save keeps the store well formed and the reservation valid; only a save assigns an id, from the sequence; an assigned id and a truthy customer id never change; only the reservation's own row can change and the only key added is the inserted one |
| Lifecycle.RunPreservesInvariants | models/reservation.js:21-30 | over any run the store stays well formed and the party size stays at least 1 |
| Lifecycle.RunKeepsAssignedId | models/reservation.js:117-133 | once assigned, the id never changes for the rest of a run |
| Lifecycle.RunWithSaveAssignsId | models/reservation.js:117-125 | a run containing a save ends with an id assigned |
| Lifecycle.RunKeepsTruthyCustomerId | models/reservation.js:61-66 | a truthy customer id survives every operation of a run |
| Lifecycle.RunInsertsAtMostOnce | models/reservation.js:117-132 | over a whole run the key set grows by exactly the first insert's id, if the run assigned one, and by nothing else |
| Lifecycle.RunRowCount | models/reservation.js:117-132 | with a well-formed store, the row count grows by one exactly when the run assigned the id, and is unchanged otherwise |
| Lifecycle.RunFreshId | models/reservation.js:118-125 | an id assigned during a run was not held by the store before it |
| Lifecycle.RunTouchesOnlyOwnRow | models/reservation.js:126-132 | any row other than the reservation's own is present and unchanged after a run |
| Lifecycle.RunKeepsCustomerColumn | models/reservation.js:127-131 | no row's customer_id changes over a run |
| Lifecycle.StepKeepsLinked | models/reservation.js:61-66 | with a truthy customer id, a saved reservation and its row keep naming the same customer across one operation |
| Lifecycle.RunKeepsLinked | models/reservation.js:61-66 | the same over a whole run |
| Lifecycle.RunEndingInSaveIsFound | models/reservation.js:117-133 | for a valid reservation with a truthy customer id, any run that ends in a save leaves it findable by id exactly as held in memory |

## Left out

- Database I/O, SQL text and async/await are replaced by the abstract store. Storage errors such as a NOT NULL violation or a lost connection are not modelled, so `Save` always succeeds.
- The id sequence is a counter (`Db.nextId`). `WellFormed` says every stored id is below it, which is what a serial column guarantees.
- `formattedStartAt` is not modelled. It is locale formatting done by the moment library, which is not part of this model.
- The error message strings are not modelled. Note that the numGuests message says "1 guest", but the check rejects values below 1.
- JavaScript coercion is not modelled. A non-number party size compares with `<` by coercion, for example `undefined < 1` is false. A truthy notes value that is not a string would be stored as is. NaN is also a falsy customer id.
- An `id` of `null` is not modelled. Only `undefined` (`None`) takes the insert branch, because the check is `=== undefined`.
- Assigning to `id` directly is not modelled. It has no setter, and in the model only the constructor and `save` set it.
- Date objects are modelled as values. Their mutability and object identity are not modelled.
- Concurrent saves to the same row (last writer wins) are not modelled.

## Findings

| source | as written | input that shows it | evidently intended | confidence | as-written member | corrected member |
|---|---|---|---|---|---|---|
| models/reservation.js:94-103 | the column list has no comma after the aliases on lines 96 and 97, so the query is a syntax error; line 103 also reads `result.row` instead of `result.rows`, and the alias `customerID` does not match the constructor's `customerId` | `Reservation.get(1)` on an empty table | select the row by id, return it as a Reservation, and report "not found" with status 404 when there is none | high; not executed | Store.GetAsWritten, with Store.GetAsWrittenMissesNotFound | Store.Get, with Store.SaveThenGet and Lifecycle.RunEndingInSaveIsFound |
