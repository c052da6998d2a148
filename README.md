# reservaia booking core, modelled in Dafny

reservaia is a WhatsApp booking assistant. An AI assistant asks for tool calls. The handler answers them by reading a business's roster, reading and writing a per-(assistant number, client number) appointment document, creating or patching events on the employee's Google calendar, and sending WhatsApp confirmations. This project models that booking logic and proves properties of it:

- `JsValues`: the JavaScript values and built-ins the handler relies on: truthiness, property keys as strings, `Array.prototype.find`, and `String.prototype.replace` with a string pattern.
- `Time`: instants are integer minutes in one fixed zone. The hour of day is `(t / 60) % 24`.
- `CalendarGateway`: `getEvents`, `createEvent` and `patchEvent` of src/utils/calendar.js. They work on the calendars as a value of type `map<calendar id, map<event id, fields>>`, which each operation receives and returns. Whether a request arrives is given as a `Fault` argument.
- `DurationSlots`: the duration-stepped free-slot search of src/calendar.js, as a method with loop invariants, proved against a recursive specification.
- `HourlySlots`: the hour-stepped search of calendar.js, with its business-hours filter and search-range end. It is also a method proved against a recursive specification.
- `Appointments`: the appointment table of src/db/appointments.js as a keyed map, plus the `updateAppointment` expression builder as a method.
- `Booking`: `saveEvent` as the function `Reconcile` over a `World`. A `World` holds the businesses, the table, the calendars, the delivered messages and the log of requests that change an external service. `Booking` also holds `getEvents` (the query tool), the tool-call dispatch rule, and the choice of the active run.
- `BookingProperties`: lemmas about `Reconcile` and `Dispatch`, and the table invariant `ValidTable`. Under `ValidTable`, keys match the items, every `appointments` attribute is a client map, and each client list has at most one record per service.
- `BookingService`: the class `Backend`, whose fields are the world's mutable parts. Its `SaveEvent` and `HandleToolCalls` methods are proved to reach exactly the state the functions describe, and to keep `ValidTable`.

The free-slot search of src/calendar.js starts its cursor at `startTime` with the minutes zeroed plus `duration` (line 31). So a busy 10:00-11:00 hour inside a 09:00-12:00 window, with 60-minute slots, yields only 11:00-12:00 and not also 09:00-10:00, because the cursor starts at 10:00. `DurationSlots.OneBusyHourExample` proves it.

## Model

| member | source | states |
|---|---|---|
| JsValues.Find | src/handlers/process-message.js:162 | `find`: None exactly when no element satisfies the predicate; otherwise the first element that does |
| JsValues.ToJsString | src/handlers/process-message.js:233 | a string key is itself; `undefined` becomes "undefined", as a property key |
| JsValues.ReplaceFirst | src/handlers/process-message.js:297 | `replace` with a string pattern: a string shorter than the pattern is unchanged; a leading match is replaced once |
| JsValues.ReplaceFirstOccurrence | src/handlers/process-message.js:297 | only the first occurrence is replaced, and the text before and after it is kept |
| JsValues.ReplaceFirstAbsent | src/handlers/process-message.js:297 | a string without the pattern is unchanged |
| Time.FloorHour | src/calendar.js:31 | `minutes(0)`: the largest whole hour not after `t`, within the same hour |
| Time.HourOf | calendar.js:140 | `hour()`: the hour of the day, 0..23, whose 60 minutes contain `t`'s minute of the day |
| Time.EndOfDay | calendar.js:39 | `endOf("day")`: the last minute of `t`'s day |
| CalendarGateway.GetEvents | src/utils/calendar.js:28-47 | the listed items; `[]` when the answer has none; `[]` on any error |
| CalendarGateway.InsertEvent | src/utils/calendar.js:58-61 | the insert fails (unreachable, 404 unknown calendar, 409 id taken) or stores the body under its id; every other calendar is unchanged |
| CalendarGateway.CreateEvent | src/utils/calendar.js:55-68 | one insert request; any failure becomes "Failed to create event" with the calendars unchanged; success needs a known calendar and a free id, returns the stored event, and adds exactly that event with every other event and calendar unchanged |
| CalendarGateway.PatchBody | src/utils/calendar.js:84-87 | `updateData` with `status` forced to "confirmed"; every other field unchanged |
| CalendarGateway.FallbackBody | src/utils/calendar.js:97-100 | `updateData` with `id` forced to the event id, and `status` not forced |
| CalendarGateway.PatchEvent | src/utils/calendar.js:78-109 | corrected `patchEvent`: first the patch of that event with status forced to "confirmed"; at most one more request, the re-insert of the same data under the same id |
| CalendarGateway.PatchEventOutcome | src/utils/calendar.js:78-109 | a successful patch merges the body into the stored event; an error other than 404 is rethrown with nothing changed; a 404 re-inserts, and succeeds exactly when the insert arrives and the id is free, returning the stored event under that id; a failed re-insert changes nothing |
| CalendarGateway.PatchEventAsWritten | src/utils/calendar.js:78-109 | as written: same requests and calendars as the corrected version |
| CalendarGateway.AsWrittenFallbackThrowsAfterStoring | src/utils/calendar.js:95-103 | as written, a successful fallback stores the event and still throws a ReferenceError for `response` |
| CalendarGateway.FallbackRecreatesUnderSameId | src/utils/calendar.js:93-103 | corrected, the fallback returns the event re-created under the original id |
| CalendarGateway.AsWrittenAgreesElsewhere | src/utils/calendar.js:78-109 | the two versions differ exactly on a successful fallback |
| DurationSlots.RunFacts | src/calendar.js:58-66 | one stretch: contiguous slots of `duration`, ordered, all ending by the stop; the next slot would cross the limit |
| DurationSlots.SweepShape | src/calendar.js:53-83 | every slot lasts `duration` and starts at or after the first cursor; the slots are pairwise ordered |
| DurationSlots.SweepAvoidsEvents | src/calendar.js:53-72 | with events sorted by start, no slot overlaps any event |
| DurationSlots.SweepWithinWindow | src/calendar.js:75-83 | when events start by the window end, no slot ends after it |
| DurationSlots.OnTheHourStartIsSkipped | src/calendar.js:31-51 | an on-the-hour start time is never a slot start; the first slot starts `duration` later |
| DurationSlots.StartCanPrecedeWindow | src/calendar.js:31 | 10:45 with 30 minutes yields a slot starting at 10:30, before the window |
| DurationSlots.OneBusyHourExample | src/calendar.js:30-90 | busy 10:00-11:00, window 09:00-12:00, 60 minutes: exactly [11:00-12:00] |
| DurationSlots.Fill | src/calendar.js:58-66 | one `while` loop computes exactly the stretch `Run` and stops the cursor at `RunEnd` |
| DurationSlots.Walk | src/calendar.js:51-83 | the event loop and the trailing loop compute exactly `Sweep` |
| DurationSlots.GetAvailableSlots | src/calendar.js:30-90 | the loops compute `Slots`; durations, order, no overlap with sorted events, and the window end hold for the result |
| HourlySlots.IsValidSlot | calendar.js:139-142 | `isValidSlot`: only the start is checked; valid exactly when its minute of the day lies in [startHour:00, endHour:00) |
| HourlySlots.FormatSlot | calendar.js:150-153 | `formatSlot`: the span starts at the cursor and lasts `duration`; the localized text is not modelled |
| HourlySlots.SearchEnd | calendar.js:34-43 | "week" gives the week's end; "fortnight" gives the end of the day 15 days ahead; anything else gives the end of the day one month ahead |
| HourlySlots.HourRunMembers | calendar.js:68-73 | a slot is produced exactly for the whole-hour cursors before the limit whose hour is valid, and each spans `duration` |
| HourlySlots.HourSweepShape | calendar.js:61-84 | every slot starts on the hour, at a valid start hour, and lasts `duration` |
| HourlySlots.HourSweepBeforeEnd | calendar.js:79-84 | when events start by the search end, every slot starts before it |
| HourlySlots.SlotCanOverlapEvent | calendar.js:68-73 | only the start is checked: a 2-hour slot at 09:00 overlaps a 10:00 event, and one at 11:00 passes the search end |
| HourlySlots.CursorCanMoveBackwards | calendar.js:75 | after overlapping events the cursor returns to the later event's end hour and offers hours inside the first event |
| HourlySlots.Advance | calendar.js:68-73 | one `while` loop computes exactly the hourly run `HourRun` before the limit |
| HourlySlots.Walk | calendar.js:61-84 | the event loop, the jump to the event's end hour and the trailing loop compute exactly `HourSweep` |
| HourlySlots.GetAvailableSlots | calendar.js:30-91 | the loops compute `Slots`; shape and search-end bound hold for the result |
| Appointments.PutItem | src/db/appointments.js:14-18 | `{assistantNumber, clientNumber, ...data}`: data fields override the key fields |
| Appointments.PutAppointment | src/db/appointments.js:13-26 | replaces the entry under the item's own key; nothing else changes; keeps keys consistent |
| Appointments.GetAppointment | src/db/appointments.js:34-42 | the stored item under the key, or None |
| Appointments.DeleteAppointment | src/db/appointments.js:49-56 | removes exactly that key |
| Appointments.GetAfterPut | src/db/appointments.js:13-42 | data without key fields reads back with the key fields added |
| Appointments.PutReadBackItem | src/db/appointments.js:13-26 | writing back an item read from a consistent table replaces exactly that entry |
| Appointments.PutOverridesKey | src/db/appointments.js:14-18 | a `clientNumber` inside the data redirects the write to another key |
| Appointments.GetAfterDelete | src/db/appointments.js:34-56 | after a delete that key reads None and every other key reads as before |
| Appointments.Clauses | src/db/appointments.js:69-70 | one `#k = :k` clause per entry, in entry order |
| Appointments.PrefixedMembers | src/db/appointments.js:71-72 | a name is in the prefixed key set exactly when it is the prefix plus some entry's key |
| Appointments.NamesOfFacts | src/db/appointments.js:69-71 | the names map has exactly one `#k` per entry, and `#k` names `k` |
| Appointments.ValuesOfFacts | src/db/appointments.js:69-72 | with distinct keys, the values map has exactly one `:k` per entry, holding that entry's value |
| Appointments.UpdateAppointment | src/db/appointments.js:64-84 | key `{assistantNumber, clientNumber}`; expression "SET " plus the clauses joined by ", "; names send each `#k` to `k`; values hold exactly one `:k` per entry |
| Appointments.EmptyUpdateExpression | src/db/appointments.js:78 | empty data gives exactly "SET " |
| Appointments.TwoEntryUpdateExpression | src/db/appointments.js:69-78 | two entries give "SET #a = :a, #b = :b" |
| Booking.SendMessage | src/handlers/process-message.js:309-314 | one send attempt is appended to the log; the outbox grows by the message exactly when delivered; table, calendars and businesses are unchanged |
| Booking.Notify | src/handlers/process-message.js:293-314 | the confirmation step never changes the businesses (`NotifyFacts` gives the rest) |
| Booking.FindEmployee | src/handlers/process-message.js:225 | the first roster employee whose name strictly equals the payload's; None when there is none |
| Booking.ResolveService | src/handlers/process-message.js:231 | `service_name` becomes `summary` exactly when falsy; no other field changes |
| Booking.ExistingRecord | src/handlers/process-message.js:233-234 | a record of the client's list whose service equals the service, with no earlier record of that service; None exactly when there is no client map or no such record |
| Booking.ConfirmationBody | src/handlers/process-message.js:294-307 | composing fails exactly when start or end is null or undefined |
| Booking.EmployeeFor | src/handlers/process-message.js:217-229 | found exactly when the business exists, has a roster and the named employee is on it |
| Booking.AfterPatch | src/handlers/process-message.js:236-244 | after the patch, the outcome is the patched event or the calendar error; businesses unchanged (`UpdatePathFacts` gives the rest) |
| Booking.UpdatePath | src/handlers/process-message.js:236-244 | the outcome is the recorded event or the calendar error; businesses unchanged (`UpdatePathFacts`) |
| Booking.StoreRecord | src/handlers/process-message.js:255-290 | the outcome is a missing list, a failed write or the created event; businesses unchanged (`StoreRecordFacts`) |
| Booking.CreatePath | src/handlers/process-message.js:245-290 | the outcome is a calendar failure, a missing list, a failed write or Created; businesses unchanged (`CreatePathFacts`) |
| Booking.Reconcile | src/handlers/process-message.js:215-319 | `saveEvent`: a failed read, and only it, ends as ReadFailed; the three early returns leave the world unchanged; businesses are never changed. `EarlyReturns`, `Routes`, `PathFacts`, `UpdatePatchesRecordedEvent`, `CreateInsertsOneEvent`, `CreatedRecordIsFound` and `ReconcileKeepsValid` give the rest |
| Booking.QueryEvents | src/handlers/process-message.js:151-206 | `[]` on a read error or missing business or roster; `[]` or one entry for a named employee; else one entry per employee in roster order, `[]` events on a failed fetch |
| Booking.Step | src/handlers/process-message.js:83-105 | one tool call: an output exactly for the three handled names, under the call's id; other than a save or a query, the world is unchanged (`StepFacts` gives the rest) |
| Booking.Dispatch | src/handlers/process-message.js:83-105 | one output per handled call (`DispatchAnswersHandledCalls` gives their ids in order; `DispatchKeepsValid`, `NoToolNoChange`) |
| Booking.ActiveRun | src/handlers/process-message.js:41-43 | the first listed run whose status is not terminal; None when all are terminal |
| BookingProperties.Routes | src/handlers/process-message.js:231-253 | after the lookups, a stored record selects the update path, and no record selects the create path |
| BookingProperties.NotifyFacts | src/handlers/process-message.js:293-314 | the confirmation step changes nothing without a body, else appends one attempt and delivers at most that message |
| BookingProperties.UpdatePathFacts | src/handlers/process-message.js:236-244 | update path: the table is untouched; the calendars are those `patchEvent` leaves; the first request is the patch of that event; no store write follows; no second patch follows; a failure sends nothing |
| BookingProperties.StoreRecordFacts | src/handlers/process-message.js:255-290 | recording writes the created document back; a failed write confirms nothing and leaves the table |
| BookingProperties.CreatePathFacts | src/handlers/process-message.js:245-290 | create path: one insert first and no other calendar request; the calendars are the insert's; only after a successful insert and write does the table change and a confirmation follow |
| BookingProperties.CreatePathCalendars | src/handlers/process-message.js:245-253 | the create path's calendars are those the insert leaves, and no calendar request follows the insert |
| BookingProperties.StoreRecordNoCalendarCall | src/handlers/process-message.js:255-290 | recording the created event issues no calendar request and leaves the calendars |
| BookingProperties.EarlyReturns | src/handlers/process-message.js:217-229 | read failure, missing business or roster, and unknown employee each happen exactly under their condition, and leave the world unchanged |
| BookingProperties.PathFacts | src/handlers/process-message.js:236-290 | once the employee is found, some request is issued, the log only grows, and a failed path sends nothing |
| BookingProperties.NoConfirmationUnlessBooked | src/handlers/process-message.js:241-289 | businesses unchanged; the log only grows; without Updated or Created there is no send attempt and no delivered message |
| BookingProperties.UpdatePatchesRecordedEvent | src/handlers/process-message.js:236-244 | with a stored record: exactly one patch, on the employee's calendar and the record's event id; no put; the table is unchanged; the calendars are those `patchEvent` leaves |
| BookingProperties.ConfirmationAfterBooking | src/handlers/process-message.js:293-314 | after a booking, the confirmation goes from the assistant number to the business's notification number, and is kept only when delivered |
| BookingProperties.CreateInsertsOneEvent | src/handlers/process-message.js:245-253 | a created booking adds exactly one event, the payload under a free id on the employee's calendar; the insert is the only calendar request; every other event and calendar is unchanged |
| BookingProperties.TableChangesOnlyOnCreate | src/handlers/process-message.js:215-290 | any outcome other than Created leaves the table as it was |
| BookingProperties.CreatePathFresh | src/handlers/process-message.js:255-268 | a created booking for a client without `appointments` writes a fresh document holding only the new record |
| BookingProperties.CreatePathAppends | src/handlers/process-message.js:274-284 | a created booking for a client map appends the new record to that client's list |
| BookingProperties.CreateWritesFreshDocument | src/handlers/process-message.js:255-268 | without an `appointments` map, the written document holds one client key with the single new record |
| BookingProperties.CreateAppendsOneRecord | src/handlers/process-message.js:274-284 | with a map, exactly one record is appended to the client's list; other clients, attributes and items are unchanged |
| BookingProperties.FindsAppended | src/handlers/process-message.js:234 | a list without the service, extended by a record for it, finds that record |
| BookingProperties.FoundAfterAppend | src/handlers/process-message.js:233-234 | after the append, the lookup for that client and service finds the new record |
| BookingProperties.CreatedRecordIsFound | src/handlers/process-message.js:233-284 | after a create, the next lookup finds the created record |
| BookingProperties.ReplayUpdatesCreatedEvent | src/handlers/process-message.js:233-244 | saving the same booking again first issues the patch of the event it created, on the employee's calendar; it ends Updated with that id or with the calendar's error, and writes no second record |
| BookingProperties.FreshDocumentValid | src/handlers/process-message.js:255-268 | the fresh document is stored under its key, and the table invariant holds |
| BookingProperties.AppendKeepsValid | src/handlers/process-message.js:274-284 | appending a service the list lacks keeps the table invariant |
| BookingProperties.ReconcileKeepsValid | src/handlers/process-message.js:215-319 | `saveEvent` keeps the table invariant |
| BookingProperties.UpdatePathDelivery | src/handlers/process-message.js:309-314 | on the update path, delivery changes only the outbox |
| BookingProperties.StoreRecordDelivery | src/handlers/process-message.js:309-314 | when recording, delivery changes only the outbox |
| BookingProperties.CreatePathDelivery | src/handlers/process-message.js:309-314 | on the create path, delivery changes only the outbox |
| BookingProperties.DeliveryOnlyAffectsOutbox | src/handlers/process-message.js:309-314 | a failed confirmation never undoes or changes a prior write, request or outcome |
| BookingProperties.OutputIds | src/handlers/process-message.js:89-103 | the tool-call ids of the outputs, in order |
| BookingProperties.StepFacts | src/handlers/process-message.js:83-105 | known names answer under the call's id, unknown names give nothing; saving always answers "reserva guardada"; cancelling changes nothing; both tools first send their notice to the client |
| BookingProperties.DispatchAnswersHandledCalls | src/handlers/process-message.js:83-105 | one output per handled call, in call order, under each call's id |
| BookingProperties.DispatchKeepsValid | src/handlers/process-message.js:83-105 | a batch of tool calls keeps the table invariant |
| BookingProperties.NoToolNoChange | src/handlers/process-message.js:99-104 | a batch of only cancellations and unknown names changes nothing |
| BookingService.Backend.SendMessage | src/handlers/process-message.js:310 | the object's state becomes `Booking.SendMessage` of the old state |
| BookingService.Backend.Confirm | src/handlers/process-message.js:293-314 | the object's state becomes `Notify` of the old state |
| BookingService.Backend.UpdateBooking | src/handlers/process-message.js:236-244 | the object's state becomes `UpdatePath` of the old state |
| BookingService.Backend.RecordBooking | src/handlers/process-message.js:255-290 | in-place `\|\|=`/`push` on the client list; the state becomes `StoreRecord` of the old state |
| BookingService.Backend.CreateBooking | src/handlers/process-message.js:245-253 | the object's state becomes `CreatePath` of the old state |
| BookingService.Backend.SaveEvent | src/handlers/process-message.js:215-319 | leaves the object in `Reconcile`'s world and keeps the table invariant |
| BookingService.Backend.HandleToolCalls | src/handlers/process-message.js:80-105 | the loop's state and outputs are `Dispatch`'s; the table invariant holds throughout |

## Left out

- OpenAI threads, runs and their polling loops: they are foreign calls with unbounded waits. Only the dispatch rule over one list of tool calls, and the active-run choice, are modelled. `JSON.parse` of the arguments is taken as done; a parse failure is not modelled.
- Webhooks, SQS, Twilio, DynamoDB and Secrets Manager clients. A send, a read or a write is an entry in the request log or the table map, and whether it fails comes from an argument. Reads are not logged.
- `marshall`/`unmarshall`: attribute values are kept as they are.
- Localised date formatting (`toLocaleString`, `transformEvent`), time zones and DST. The confirmation keeps `start` and `end` as values; slots are integer-minute intervals.
- `moment()`: "now", the end of the week and the date one month ahead are parameters. Seconds are not modelled, so `minutes(0)` is whole-minute flooring to the hour.
- Event boundaries are taken as already parsed from `dateTime || date`.
- `Promise.all` parallelism in `getEvents`: it is modelled sequentially, and results follow the roster order. Races between concurrent bookings are not modelled.
- The listing answer given to `QueryEvents` and to the slot searches is an argument. It is not derived from the calendars map.
- src/db/business.js is not part of this model. A business as read is a roster plus a notification number. A roster that is missing, falsy or not an array is read as absent (None). For a truthy roster that is not an array the source throws at `find` or `map`, and the error is caught (lines 203-206 and 316-318), so `saveEvent` does nothing and `getEvents` gives `[]`, as the absent roster does in the model.
- The older `guardar_reserva` branches in src/ai.js and ai.js, and `createEvent` of calendar.js, are not modelled: they are superseded duplicates.
- DurationSlots.GetAvailableSlots: requires `duration > 0`. With a zero or negative duration, once a source loop is entered it never ends; when no loop is entered the source returns at once.
- Appointments.UpdateAppointment: requires distinct keys, which the keys of a JavaScript object always are.
- Booking.Reconcile: an `appointments` attribute that is truthy but is not a client map is modelled as a TypeError after the insert (`ListMissing`). This code never writes such an attribute (`ValidTable`). A string in that position, indexed by the client name, is not modelled.
- Booking.Reconcile: property lookup reads only own properties. A client name that JavaScript objects inherit from `Object.prototype` ("constructor", "toString", "__proto__" and the like) is not modelled. In the source `appointments["constructor"]` is a function, so `find` throws at line 234 and the error is caught at line 316, before any calendar call. The model reads that client's list as empty and takes the create path.
- Booking.Reconcile: uses the corrected `patchEvent`. As written, after a 404 fallback, `saveEvent` logs the ReferenceError and returns before the confirmation (lines 241-244); see Findings.

## Findings

| source | as written | input that shows it | evidently intended | confidence | as-written member | corrected member |
|---|---|---|---|---|---|---|
| src/utils/calendar.js:102 | after a successful fallback insert, the log line reads the undeclared `response`; the call throws a ReferenceError although the event was re-created | patching an event id that is not on an existing calendar (the patch answers 404, the insert succeeds) | return the inserted event's data | high (not executed) | CalendarGateway.AsWrittenFallbackThrowsAfterStoring | CalendarGateway.FallbackRecreatesUnderSameId |
