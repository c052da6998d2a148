/**
 * The calendar wrapper (src/utils/calendar.js): listing events, creating an
 * event, and patching an event with a fall-back to re-insertion when the
 * calendar reports it missing. The remote calendar is a value that each
 * operation receives and returns; whether a request reaches the service is
 * given by a `Fault` argument.
 */
module CalendarGateway {
  import opened Wrappers
  import opened JsValues

  type CalendarId = string
  type EventId = string

  /** Every calendar the service account reaches: calendar id, then event id, then the stored event body. */
  type Calendars = map<CalendarId, map<EventId, Fields>>

  /** An error thrown by the calendar client or by the wrapper itself. */
  datatype GatewayError =
    | Http(status: int)               // the service answered with an error status
    | Network                         // no answer (transport or authentication failure)
    | ReferenceError(identifier: string)
    | Message(text: string)           // `new Error(text)`

  const NotFound: GatewayError := Http(404)
  const Conflict: GatewayError := Http(409)
  const CreateFailed: GatewayError := Message("Failed to create event")

  /** Whether one request reaches the service, or fails on the way with `error`. */
  datatype Fault = Reachable | Unreachable(error: GatewayError)

  /** The answer of `events.list`: some items, a response without `items`, or an error. */
  datatype Listing<T> = Items(items: seq<T>) | NoItems | ListFailed(error: GatewayError)

  /** A request that changes a calendar. */
  datatype Request =
    | Patch(calendarId: CalendarId, eventId: EventId, body: Fields)
    | Insert(calendarId: CalendarId, body: Fields)

  /** `response.data` of a successful insert or patch. */
  datatype StoredEvent = StoredEvent(id: EventId, body: Fields)

  /** The calendars after an operation, what it returned or threw, and the requests it issued. */
  datatype Reply = Reply(calendars: Calendars, result: Result<StoredEvent, GatewayError>, requests: seq<Request>)

  /** `getEvents` (lines 28-47): the listed items, `[]` when there are none, `[]` on any error. */
  function GetEvents<T>(listing: Listing<T>): (r: seq<T>)
    ensures listing.Items? ==> r == listing.items
    ensures !listing.Items? ==> r == []
  {
    match listing
    case Items(items) => items
    case NoItems => []
    case ListFailed(_) => []
  }

  /** The id an inserted event gets: the body's own string `id`, else the one the service picks. */
  function InsertedId(body: Fields, serviceId: EventId): EventId
  {
    if Get(body, "id").Str? then Get(body, "id").s else serviceId
  }

  /**
   * `calendar.events.insert`: fails when the request does not arrive, when the
   * calendar is unknown (404) or when the id is taken (409); otherwise the
   * event is stored under its id, with that id in its body.
   */
  function InsertEvent(cals: Calendars, calendarId: CalendarId, body: Fields, fault: Fault, serviceId: EventId): (r: Reply)
    ensures r.requests == [Insert(calendarId, body)]
    ensures r.result.Success? <==>
      fault.Reachable? && calendarId in cals && InsertedId(body, serviceId) !in cals[calendarId]
    ensures r.result.Success? ==>
      var id := InsertedId(body, serviceId);
      && r.result.value == StoredEvent(id, body["id" := Str(id)])
      && r.calendars.Keys == cals.Keys
      && r.calendars[calendarId] == cals[calendarId][id := body["id" := Str(id)]]
      && forall c :: c in cals && c != calendarId ==> r.calendars[c] == cals[c]
    ensures r.result.Failure? ==> r.calendars == cals
  {
    var id := InsertedId(body, serviceId);
    var stored := body["id" := Str(id)];
    var result :=
      if fault.Unreachable? then Failure(fault.error)
      else if calendarId !in cals then Failure(NotFound)
      else if id in cals[calendarId] then Failure(Conflict)
      else Success(StoredEvent(id, stored));
    var after := if result.Success? then cals[calendarId := cals[calendarId][id := stored]] else cals;
    Reply(after, result, [Insert(calendarId, body)])
  }

  /** `createEvent` (lines 55-68): an insert whose every failure is rethrown as "Failed to create event". */
  function CreateEvent(cals: Calendars, calendarId: CalendarId, eventData: Fields, fault: Fault, serviceId: EventId): (r: Reply)
    ensures r.requests == [Insert(calendarId, eventData)]
    ensures r.result.Failure? ==> r.result.error == CreateFailed && r.calendars == cals
    ensures r.result.Success? ==>
      var id := InsertedId(eventData, serviceId);
      && calendarId in cals && id !in cals[calendarId]
      && r.result.value == StoredEvent(id, eventData["id" := Str(id)])
      && r.calendars == cals[calendarId := cals[calendarId][id := r.result.value.body]]
  {
    var reply := InsertEvent(cals, calendarId, eventData, fault, serviceId);
    if reply.result.Failure? then reply.(result := Failure(CreateFailed)) else reply
  }

  /** The patch request body (lines 84-87): `{...updateData, status: 'confirmed'}`. */
  function PatchBody(updateData: Fields): (b: Fields)
    ensures b.Keys == updateData.Keys + {"status"}
    ensures b["status"] == Str("confirmed")
    ensures forall k :: k in updateData && k != "status" ==> b[k] == updateData[k]
  {
    updateData["status" := Str("confirmed")]
  }

  /** The fall-back insert body (lines 97-100): `{...updateData, id: eventId}`; `status` is not forced. */
  function FallbackBody(updateData: Fields, eventId: EventId): (b: Fields)
    ensures b.Keys == updateData.Keys + {"id"}
    ensures b["id"] == Str(eventId)
    ensures forall k :: k in updateData && k != "id" ==> b[k] == updateData[k]
  {
    updateData["id" := Str(eventId)]
  }

  /** What the patch request itself throws, or None when it succeeds. */
  function PatchError(cals: Calendars, calendarId: CalendarId, eventId: EventId, fault: Fault): Option<GatewayError>
  {
    if fault.Unreachable? then Some(fault.error)
    else if calendarId !in cals || eventId !in cals[calendarId] then Some(NotFound)
    else None
  }

  /**
   * `patchEvent` (lines 78-109) as its authors intended it: patch with status
   * forced to 'confirmed'; on a 404 insert the same data under the same id and
   * return the inserted event; rethrow any other error.
   */
  function PatchEvent(cals: Calendars, calendarId: CalendarId, eventId: EventId, updateData: Fields,
                      patchFault: Fault, insertFault: Fault): (r: Reply)
    ensures 1 <= |r.requests| <= 2 && r.requests[0] == Patch(calendarId, eventId, PatchBody(updateData))
    ensures |r.requests| == 2 ==> r.requests[1] == Insert(calendarId, FallbackBody(updateData, eventId))
  {
    var patch := Patch(calendarId, eventId, PatchBody(updateData));
    match PatchError(cals, calendarId, eventId, patchFault)
    case None =>
      var merged := cals[calendarId][eventId] + PatchBody(updateData);
      Reply(cals[calendarId := cals[calendarId][eventId := merged]], Success(StoredEvent(eventId, merged)), [patch])
    case Some(e) =>
      if e == NotFound then
        var inserted := InsertEvent(cals, calendarId, FallbackBody(updateData, eventId), insertFault, eventId);
        inserted.(requests := [patch] + inserted.requests)
      else
        Reply(cals, Failure(e), [patch])
  }

  /**
   * What `patchEvent` does on each answer of the patch request: success
   * merges the body into the stored event; an error other than 404 is
   * rethrown with nothing changed; a 404 re-inserts the data under the same
   * id, and only a successful insert changes the calendar.
   */
  lemma PatchEventOutcome(cals: Calendars, calendarId: CalendarId, eventId: EventId, updateData: Fields,
                          patchFault: Fault, insertFault: Fault)
    ensures var r := PatchEvent(cals, calendarId, eventId, updateData, patchFault, insertFault);
      && (PatchError(cals, calendarId, eventId, patchFault).None? ==>
            && |r.requests| == 1
            && r.result == Success(StoredEvent(eventId, cals[calendarId][eventId] + PatchBody(updateData)))
            && r.calendars == cals[calendarId := cals[calendarId][eventId := cals[calendarId][eventId] + PatchBody(updateData)]])
      && (PatchError(cals, calendarId, eventId, patchFault).Some? && PatchError(cals, calendarId, eventId, patchFault).value != NotFound ==>
            |r.requests| == 1 && r.result == Failure(PatchError(cals, calendarId, eventId, patchFault).value) && r.calendars == cals)
      && (PatchError(cals, calendarId, eventId, patchFault) == Some(NotFound) ==>
            && |r.requests| == 2
            && (r.result.Success? <==> insertFault.Reachable? && calendarId in cals && eventId !in cals[calendarId])
            && (r.result.Success? ==> r.result.value.id == eventId && calendarId in r.calendars && eventId in r.calendars[calendarId]
                                      && r.calendars[calendarId][eventId] == r.result.value.body)
            && (r.result.Failure? ==> r.calendars == cals))
  {
    var fallback := FallbackBody(updateData, eventId);
    assert InsertedId(fallback, eventId) == eventId;
  }

  /**
   * `patchEvent` as written: after a successful fall-back insert, line 102
   * reads `response`, which is not declared, so the call throws a
   * ReferenceError although the event has been stored.
   */
  function PatchEventAsWritten(cals: Calendars, calendarId: CalendarId, eventId: EventId, updateData: Fields,
                               patchFault: Fault, insertFault: Fault): (r: Reply)
    ensures r.requests == PatchEvent(cals, calendarId, eventId, updateData, patchFault, insertFault).requests
    ensures r.calendars == PatchEvent(cals, calendarId, eventId, updateData, patchFault, insertFault).calendars
  {
    var intended := PatchEvent(cals, calendarId, eventId, updateData, patchFault, insertFault);
    if |intended.requests| == 2 && intended.result.Success? then
      intended.(result := Failure(ReferenceError("response")))
    else intended
  }

  /** As written, a successful fall-back leaves the event stored yet reports failure to the caller. */
  lemma AsWrittenFallbackThrowsAfterStoring(cals: Calendars, calendarId: CalendarId, eventId: EventId, updateData: Fields)
    requires calendarId in cals && eventId !in cals[calendarId]
    ensures var r := PatchEventAsWritten(cals, calendarId, eventId, updateData, Reachable, Reachable);
      && r.result == Failure(ReferenceError("response"))
      && eventId in r.calendars[calendarId]
      && r.calendars[calendarId][eventId] == FallbackBody(updateData, eventId)
  {
    PatchEventOutcome(cals, calendarId, eventId, updateData, Reachable, Reachable);
  }

  /** As intended, the same fall-back succeeds and returns the re-created event under the original id. */
  lemma FallbackRecreatesUnderSameId(cals: Calendars, calendarId: CalendarId, eventId: EventId, updateData: Fields)
    requires calendarId in cals && eventId !in cals[calendarId]
    ensures var r := PatchEvent(cals, calendarId, eventId, updateData, Reachable, Reachable);
      && r.result == Success(StoredEvent(eventId, FallbackBody(updateData, eventId)))
      && r.calendars[calendarId][eventId] == FallbackBody(updateData, eventId)
      && r.requests[1] == Insert(calendarId, FallbackBody(updateData, eventId))
  {
    PatchEventOutcome(cals, calendarId, eventId, updateData, Reachable, Reachable);
    var body := FallbackBody(updateData, eventId);
    assert body["id" := Str(eventId)] == body;
  }

  /** The two versions differ only in the result of a successful fall-back. */
  lemma AsWrittenAgreesElsewhere(cals: Calendars, calendarId: CalendarId, eventId: EventId, updateData: Fields,
                                 patchFault: Fault, insertFault: Fault)
    ensures var intended := PatchEvent(cals, calendarId, eventId, updateData, patchFault, insertFault);
      var written := PatchEventAsWritten(cals, calendarId, eventId, updateData, patchFault, insertFault);
      written.result != intended.result <==> |intended.requests| == 2 && intended.result.Success?
  {
  }
}
